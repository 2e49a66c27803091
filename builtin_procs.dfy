/**
 * The static table ShippableBuiltinProcs of shippable_builtin_functions.c,
 * entry for entry and in source order, and GetShippableBuiltinFunctions.
 * The table is written as consecutive blocks of source lines; each block
 * also lists the function names it defines. The second half of the module
 * checks the blocks one at a time (see BlocksOk).
 */
module BuiltinProcs {
  import opened Wrappers
  import opened ShippableFunctions

  /** Lines 50-75: count, any_value, avg and sum. */
  const CountAvgSumNames: set<string> := {"count", "any_value", "avg", "sum"}
  const CountAvgSum := Block(
    CountAvgSumNames,
    [ ShippableFunction("count", Agg, 0, [], None)
    , ShippableFunction("count", Agg, 1, ["any"], None)
    , ShippableFunction("any_value", Agg, 1, ["anyelement"], None)
    , ShippableFunction("avg", Agg, 1, ["int2"], None)
    , ShippableFunction("avg", Agg, 1, ["int4"], None)
    , ShippableFunction("avg", Agg, 1, ["int8"], None)
    , ShippableFunction("avg", Agg, 1, ["float4"], None)
    , ShippableFunction("avg", Agg, 1, ["float8"], None)
    , ShippableFunction("avg", Agg, 1, ["numeric"], None)
    , ShippableFunction("sum", Agg, 1, ["int2"], None)
    , ShippableFunction("sum", Agg, 1, ["int4"], None)
    , ShippableFunction("sum", Agg, 1, ["int8"], None)
    , ShippableFunction("sum", Agg, 1, ["float4"], None)
    , ShippableFunction("sum", Agg, 1, ["float8"], None)
    , ShippableFunction("sum", Agg, 1, ["numeric"], None)
    ])

  /** Lines 77-91: min. */
  const MinAggregatesNames: set<string> := {"min"}
  const MinAggregates := Block(
    MinAggregatesNames,
    [ ShippableFunction("min", Agg, 1, ["int2"], None)
    , ShippableFunction("min", Agg, 1, ["int4"], None)
    , ShippableFunction("min", Agg, 1, ["int8"], None)
    , ShippableFunction("min", Agg, 1, ["float4"], None)
    , ShippableFunction("min", Agg, 1, ["float8"], None)
    , ShippableFunction("min", Agg, 1, ["numeric"], None)
    , ShippableFunction("min", Agg, 1, ["text"], None)
    , ShippableFunction("min", Agg, 1, ["bpchar"], None)
    , ShippableFunction("min", Agg, 1, ["date"], None)
    , ShippableFunction("min", Agg, 1, ["timestamp"], None)
    , ShippableFunction("min", Agg, 1, ["timestamptz"], None)
    , ShippableFunction("min", Agg, 1, ["time"], None)
    , ShippableFunction("min", Agg, 1, ["timetz"], None)
    , ShippableFunction("min", Agg, 1, ["anyenum"], None)
    , ShippableFunction("min", Agg, 1, ["anyarray"], None)
    ])

  /** Lines 93-107: max. */
  const MaxAggregatesNames: set<string> := {"max"}
  const MaxAggregates := Block(
    MaxAggregatesNames,
    [ ShippableFunction("max", Agg, 1, ["int2"], None)
    , ShippableFunction("max", Agg, 1, ["int4"], None)
    , ShippableFunction("max", Agg, 1, ["int8"], None)
    , ShippableFunction("max", Agg, 1, ["float4"], None)
    , ShippableFunction("max", Agg, 1, ["float8"], None)
    , ShippableFunction("max", Agg, 1, ["numeric"], None)
    , ShippableFunction("max", Agg, 1, ["text"], None)
    , ShippableFunction("max", Agg, 1, ["bpchar"], None)
    , ShippableFunction("max", Agg, 1, ["date"], None)
    , ShippableFunction("max", Agg, 1, ["timestamp"], None)
    , ShippableFunction("max", Agg, 1, ["timestamptz"], None)
    , ShippableFunction("max", Agg, 1, ["time"], None)
    , ShippableFunction("max", Agg, 1, ["timetz"], None)
    , ShippableFunction("max", Agg, 1, ["anyenum"], None)
    , ShippableFunction("max", Agg, 1, ["anyarray"], None)
    ])

  /** Lines 109-128: stddev, stddev_pop and stddev_samp. */
  const StddevAggregatesNames: set<string> := {"stddev", "stddev_pop", "stddev_samp"}
  const StddevAggregates := Block(
    StddevAggregatesNames,
    [ ShippableFunction("stddev", Agg, 1, ["int2"], None)
    , ShippableFunction("stddev", Agg, 1, ["int4"], None)
    , ShippableFunction("stddev", Agg, 1, ["int8"], None)
    , ShippableFunction("stddev", Agg, 1, ["float4"], None)
    , ShippableFunction("stddev", Agg, 1, ["float8"], None)
    , ShippableFunction("stddev", Agg, 1, ["numeric"], None)
    , ShippableFunction("stddev_pop", Agg, 1, ["int2"], None)
    , ShippableFunction("stddev_pop", Agg, 1, ["int4"], None)
    , ShippableFunction("stddev_pop", Agg, 1, ["int8"], None)
    , ShippableFunction("stddev_pop", Agg, 1, ["float4"], None)
    , ShippableFunction("stddev_pop", Agg, 1, ["float8"], None)
    , ShippableFunction("stddev_pop", Agg, 1, ["numeric"], None)
    , ShippableFunction("stddev_samp", Agg, 1, ["int2"], None)
    , ShippableFunction("stddev_samp", Agg, 1, ["int4"], None)
    , ShippableFunction("stddev_samp", Agg, 1, ["int8"], None)
    , ShippableFunction("stddev_samp", Agg, 1, ["float4"], None)
    , ShippableFunction("stddev_samp", Agg, 1, ["float8"], None)
    , ShippableFunction("stddev_samp", Agg, 1, ["numeric"], None)
    ])

  /** Lines 130-149: variance, var_samp and var_pop. */
  const VarianceAggregatesNames: set<string> := {"variance", "var_samp", "var_pop"}
  const VarianceAggregates := Block(
    VarianceAggregatesNames,
    [ ShippableFunction("variance", Agg, 1, ["int2"], None)
    , ShippableFunction("variance", Agg, 1, ["int4"], None)
    , ShippableFunction("variance", Agg, 1, ["int8"], None)
    , ShippableFunction("variance", Agg, 1, ["float4"], None)
    , ShippableFunction("variance", Agg, 1, ["float8"], None)
    , ShippableFunction("variance", Agg, 1, ["numeric"], None)
    , ShippableFunction("var_samp", Agg, 1, ["int2"], None)
    , ShippableFunction("var_samp", Agg, 1, ["int4"], None)
    , ShippableFunction("var_samp", Agg, 1, ["int8"], None)
    , ShippableFunction("var_samp", Agg, 1, ["float4"], None)
    , ShippableFunction("var_samp", Agg, 1, ["float8"], None)
    , ShippableFunction("var_samp", Agg, 1, ["numeric"], None)
    , ShippableFunction("var_pop", Agg, 1, ["int2"], None)
    , ShippableFunction("var_pop", Agg, 1, ["int4"], None)
    , ShippableFunction("var_pop", Agg, 1, ["int8"], None)
    , ShippableFunction("var_pop", Agg, 1, ["float4"], None)
    , ShippableFunction("var_pop", Agg, 1, ["float8"], None)
    , ShippableFunction("var_pop", Agg, 1, ["numeric"], None)
    ])

  /** Lines 151-168: the two-argument statistical aggregates, mode and the percentiles. */
  const StatisticalAggregatesNames: set<string> := {"corr", "covar_pop", "covar_samp", "regr_avgx", "regr_avgy", "regr_count", "regr_intercept", "regr_r2", "regr_slope", "regr_sxx", "regr_sxy", "regr_syy", "mode", "percentile_cont", "percentile_disc"}
  const StatisticalAggregates := Block(
    StatisticalAggregatesNames,
    [ ShippableFunction("corr", Agg, 2, ["float8", "float8"], None)
    , ShippableFunction("covar_pop", Agg, 2, ["float8", "float8"], None)
    , ShippableFunction("covar_samp", Agg, 2, ["float8", "float8"], None)
    , ShippableFunction("regr_avgx", Agg, 2, ["float8", "float8"], None)
    , ShippableFunction("regr_avgy", Agg, 2, ["float8", "float8"], None)
    , ShippableFunction("regr_count", Agg, 2, ["float8", "float8"], None)
    , ShippableFunction("regr_intercept", Agg, 2, ["float8", "float8"], None)
    , ShippableFunction("regr_r2", Agg, 2, ["float8", "float8"], None)
    , ShippableFunction("regr_slope", Agg, 2, ["float8", "float8"], None)
    , ShippableFunction("regr_sxx", Agg, 2, ["float8", "float8"], None)
    , ShippableFunction("regr_sxy", Agg, 2, ["float8", "float8"], None)
    , ShippableFunction("regr_syy", Agg, 2, ["float8", "float8"], None)
    , ShippableFunction("mode", Agg, 1, ["anyelement"], None)
    , ShippableFunction("percentile_cont", Agg, 2, ["float8", "float8"], None)
    , ShippableFunction("percentile_disc", Agg, 2, ["float8", "anyelement"], None)
    , ShippableFunction("percentile_cont", Agg, 2, ["_float8", "float8"], None)
    , ShippableFunction("percentile_disc", Agg, 2, ["_float8", "anyelement"], None)
    ])

  /** Lines 170-187: casts to numeric, float8 and float4. */
  const NumericFloatCastsNames: set<string> := {"numeric", "float8", "float4"}
  const NumericFloatCasts := Block(
    NumericFloatCastsNames,
    [ ShippableFunction("numeric", Func, 1, ["int2"], None)
    , ShippableFunction("numeric", Func, 1, ["int4"], None)
    , ShippableFunction("numeric", Func, 1, ["int8"], None)
    , ShippableFunction("numeric", Func, 1, ["float4"], None)
    , ShippableFunction("numeric", Func, 1, ["float8"], None)
    , ShippableFunction("numeric", Func, 2, ["numeric", "int4"], Some(Cast))
    , ShippableFunction("float8", Func, 1, ["int2"], None)
    , ShippableFunction("float8", Func, 1, ["int4"], None)
    , ShippableFunction("float8", Func, 1, ["int8"], None)
    , ShippableFunction("float8", Func, 1, ["float4"], None)
    , ShippableFunction("float8", Func, 1, ["numeric"], None)
    , ShippableFunction("float4", Func, 1, ["int2"], None)
    , ShippableFunction("float4", Func, 1, ["int4"], None)
    , ShippableFunction("float4", Func, 1, ["int8"], None)
    , ShippableFunction("float4", Func, 1, ["float8"], None)
    , ShippableFunction("float4", Func, 1, ["numeric"], None)
    ])

  /** Lines 189-207: casts to int2, int4 and int8. */
  const IntegerCastsNames: set<string> := {"int2", "int4", "int8"}
  const IntegerCasts := Block(
    IntegerCastsNames,
    [ ShippableFunction("int2", Func, 1, ["int4"], None)
    , ShippableFunction("int2", Func, 1, ["int8"], None)
    , ShippableFunction("int2", Func, 1, ["float4"], None)
    , ShippableFunction("int2", Func, 1, ["float8"], None)
    , ShippableFunction("int2", Func, 1, ["numeric"], None)
    , ShippableFunction("int4", Func, 1, ["bit"], None)
    , ShippableFunction("int4", Func, 1, ["int2"], None)
    , ShippableFunction("int4", Func, 1, ["int8"], None)
    , ShippableFunction("int4", Func, 1, ["float4"], None)
    , ShippableFunction("int4", Func, 1, ["float8"], None)
    , ShippableFunction("int4", Func, 1, ["numeric"], None)
    , ShippableFunction("int8", Func, 1, ["bit"], None)
    , ShippableFunction("int8", Func, 1, ["int2"], None)
    , ShippableFunction("int8", Func, 1, ["int4"], None)
    , ShippableFunction("int8", Func, 1, ["float4"], None)
    , ShippableFunction("int8", Func, 1, ["float8"], None)
    , ShippableFunction("int8", Func, 1, ["numeric"], None)
    ])

  /** Lines 210-219: casts to text, "char" and bpchar. */
  const TextCastsNames: set<string> := {"text", "char", "bpchar"}
  const TextCasts := Block(
    TextCastsNames,
    [ ShippableFunction("text", Func, 1, ["bpchar"], None)
    , ShippableFunction("text", Func, 1, ["char"], None)
    , ShippableFunction("text", Func, 1, ["bool"], None)
    , ShippableFunction("char", Func, 1, ["text"], Some(Cast))
    , ShippableFunction("bpchar", Func, 3, ["bpchar", "int4", "bool"], Some(Cast))
    ])

  /** Lines 222-231: casts between date, timestamp, timestamptz, time and timetz. */
  const DateTimeCastsNames: set<string> := {"date", "timestamp", "timestamptz", "time", "timetz"}
  const DateTimeCasts := Block(
    DateTimeCastsNames,
    [ ShippableFunction("date", Func, 1, ["timestamp"], None)
    , ShippableFunction("date", Func, 1, ["timestamptz"], None)
    , ShippableFunction("timestamp", Func, 1, ["date"], None)
    , ShippableFunction("timestamp", Func, 1, ["timestamptz"], None)
    , ShippableFunction("timestamptz", Func, 1, ["date"], None)
    , ShippableFunction("timestamptz", Func, 1, ["timestamp"], None)
    , ShippableFunction("time", Func, 1, ["timetz"], None)
    , ShippableFunction("time", Func, 1, ["timestamp"], None)
    , ShippableFunction("timetz", Func, 1, ["time"], None)
    , ShippableFunction("timetz", Func, 1, ["timestamptz"], None)
    ])

  /** Lines 233-250: length, to_date, to_timestamp, extract and date_part. */
  const DateTimeFieldsNames: set<string> := {"length", "to_date", "to_timestamp", "extract", "date_part"}
  const DateTimeFields := Block(
    DateTimeFieldsNames,
    [ ShippableFunction("length", Func, 1, ["text"], None)
    , ShippableFunction("to_date", Func, 1, ["float8"], None)
    , ShippableFunction("to_timestamp", Func, 1, ["float8"], None)
    , ShippableFunction("extract", Func, 2, ["text", "date"], None)
    , ShippableFunction("extract", Func, 2, ["text", "interval"], None)
    , ShippableFunction("extract", Func, 2, ["text", "timetz"], None)
    , ShippableFunction("extract", Func, 2, ["text", "time"], None)
    , ShippableFunction("extract", Func, 2, ["text", "timestamptz"], None)
    , ShippableFunction("extract", Func, 2, ["text", "timestamp"], None)
    , ShippableFunction("date_part", Func, 2, ["text", "date"], None)
    , ShippableFunction("date_part", Func, 2, ["text", "interval"], None)
    , ShippableFunction("date_part", Func, 2, ["text", "time"], None)
    , ShippableFunction("date_part", Func, 2, ["text", "timetz"], None)
    , ShippableFunction("date_part", Func, 2, ["text", "timestamptz"], None)
    , ShippableFunction("date_part", Func, 2, ["text", "timestamp"], None)
    ])

  /** Lines 252-262: date_bin, date_trunc, now and to_char. */
  const DateTimeFormattingNames: set<string> := {"date_bin", "date_trunc", "now", "to_char"}
  const DateTimeFormatting := Block(
    DateTimeFormattingNames,
    [ ShippableFunction("date_bin", Func, 3, ["interval", "timestamptz", "timestamptz"], None)
    , ShippableFunction("date_bin", Func, 3, ["interval", "timestamp", "timestamp"], None)
    , ShippableFunction("date_trunc", Func, 2, ["text", "interval"], None)
    , ShippableFunction("date_trunc", Func, 2, ["text", "timestamp"], None)
    , ShippableFunction("date_trunc", Func, 2, ["text", "timestamptz"], None)
    , ShippableFunction("now", Func, 0, [], None)
    , ShippableFunction("to_char", Func, 2, ["timestamp", "text"], Some(ToChar))
    , ShippableFunction("to_char", Func, 2, ["timestamptz", "text"], Some(ToChar))
    ])

  /** Lines 267-287: regexp_replace, concat and the bool functions. */
  const RegexpConcatBoolNames: set<string> := {"regexp_replace", "concat", "bool", "bool_and", "bool_or"}
  const RegexpConcatBool := Block(
    RegexpConcatBoolNames,
    [ ShippableFunction("regexp_replace", Func, 3, ["text", "text", "text"], None)
    , ShippableFunction("regexp_replace", Func, 4, ["text", "text", "text", "text"], None)
    , ShippableFunction("concat", Func, 1, ["any"], Some(Concat))
    , ShippableFunction("bool", Func, 1, ["int4"], None)
    , ShippableFunction("bool_and", Agg, 1, ["bool"], None)
    , ShippableFunction("bool_or", Agg, 1, ["bool"], None)
    ])

  /** Lines 290-305: mathematical functions abs to exp. */
  const MathAbsToExpNames: set<string> := {"abs", "cbrt", "ceil", "ceiling", "degrees", "div", "exp"}
  const MathAbsToExp := Block(
    MathAbsToExpNames,
    [ ShippableFunction("abs", Func, 1, ["int2"], None)
    , ShippableFunction("abs", Func, 1, ["int4"], None)
    , ShippableFunction("abs", Func, 1, ["int8"], None)
    , ShippableFunction("abs", Func, 1, ["float4"], None)
    , ShippableFunction("abs", Func, 1, ["float8"], None)
    , ShippableFunction("abs", Func, 1, ["numeric"], None)
    , ShippableFunction("cbrt", Func, 1, ["float8"], None)
    , ShippableFunction("ceil", Func, 1, ["float8"], None)
    , ShippableFunction("ceil", Func, 1, ["numeric"], None)
    , ShippableFunction("ceiling", Func, 1, ["float8"], None)
    , ShippableFunction("ceiling", Func, 1, ["numeric"], None)
    , ShippableFunction("degrees", Func, 1, ["float8"], None)
    , ShippableFunction("div", Func, 2, ["numeric", "numeric"], None)
    , ShippableFunction("exp", Func, 1, ["float8"], None)
    , ShippableFunction("exp", Func, 1, ["numeric"], None)
    ])

  /** Lines 306-326: mathematical functions floor to trunc. */
  const MathFloorToTruncNames: set<string> := {"floor", "ln", "log", "log10", "mod", "pi", "power", "radians", "round", "sqrt", "trunc"}
  const MathFloorToTrunc := Block(
    MathFloorToTruncNames,
    [ ShippableFunction("floor", Func, 1, ["float8"], None)
    , ShippableFunction("floor", Func, 1, ["numeric"], None)
    , ShippableFunction("ln", Func, 1, ["float8"], None)
    , ShippableFunction("ln", Func, 1, ["numeric"], None)
    , ShippableFunction("log", Func, 1, ["float8"], None)
    , ShippableFunction("log", Func, 1, ["numeric"], None)
    , ShippableFunction("log10", Func, 1, ["float8"], None)
    , ShippableFunction("log10", Func, 1, ["numeric"], None)
    , ShippableFunction("mod", Func, 2, ["numeric", "numeric"], None)
    , ShippableFunction("pi", Func, 0, [], None)
    , ShippableFunction("power", Func, 2, ["float8", "float8"], None)
    , ShippableFunction("power", Func, 2, ["numeric", "numeric"], None)
    , ShippableFunction("radians", Func, 1, ["float8"], None)
    , ShippableFunction("round", Func, 1, ["float8"], None)
    , ShippableFunction("round", Func, 1, ["numeric"], None)
    , ShippableFunction("round", Func, 2, ["numeric", "int4"], None)
    , ShippableFunction("sqrt", Func, 1, ["float8"], None)
    , ShippableFunction("sqrt", Func, 1, ["numeric"], None)
    , ShippableFunction("trunc", Func, 1, ["float8"], None)
    , ShippableFunction("trunc", Func, 1, ["numeric"], None)
    ])

  /** Lines 329-347: random and the trigonometric functions. */
  const RandomTrigNames: set<string> := {"random", "acos", "acosd", "asin", "asind", "atan", "atand", "atan2", "atan2d", "cos", "cosd", "cot", "cotd", "sin", "sind", "tan", "tand"}
  const RandomTrig := Block(
    RandomTrigNames,
    [ ShippableFunction("random", Func, 0, [], None)
    , ShippableFunction("acos", Func, 1, ["float8"], None)
    , ShippableFunction("acosd", Func, 1, ["float8"], None)
    , ShippableFunction("asin", Func, 1, ["float8"], None)
    , ShippableFunction("asind", Func, 1, ["float8"], None)
    , ShippableFunction("atan", Func, 1, ["float8"], None)
    , ShippableFunction("atand", Func, 1, ["float8"], None)
    , ShippableFunction("atan2", Func, 2, ["float8", "float8"], None)
    , ShippableFunction("atan2d", Func, 2, ["float8", "float8"], None)
    , ShippableFunction("cos", Func, 1, ["float8"], None)
    , ShippableFunction("cosd", Func, 1, ["float8"], None)
    , ShippableFunction("cot", Func, 1, ["float8"], None)
    , ShippableFunction("cotd", Func, 1, ["float8"], None)
    , ShippableFunction("sin", Func, 1, ["float8"], None)
    , ShippableFunction("sind", Func, 1, ["float8"], None)
    , ShippableFunction("tan", Func, 1, ["float8"], None)
    , ShippableFunction("tand", Func, 1, ["float8"], None)
    ])

  /** Lines 350-373: array functions and array aggregates. */
  const ArrayFunctionsNames: set<string> := {"array_append", "array_cat", "array_length", "array_prepend", "cardinality", "unnest", "array_agg"}
  const ArrayFunctions := Block(
    ArrayFunctionsNames,
    [ ShippableFunction("array_append", Func, 2, ["anycompatiblearray", "anycompatible"], None)
    , ShippableFunction("array_cat", Func, 2, ["anycompatiblearray", "anycompatiblearray"], None)
    , ShippableFunction("array_length", Func, 2, ["anyarray", "int4"], Some(ArrayLength))
    , ShippableFunction("array_prepend", Func, 2, ["anycompatible", "anycompatiblearray"], None)
    , ShippableFunction("cardinality", Func, 1, ["anyarray"], None)
    , ShippableFunction("unnest", Func, 1, ["anyarray"], None)
    , ShippableFunction("array_agg", Agg, 1, ["anyarray"], None)
    , ShippableFunction("array_agg", Agg, 1, ["anynonarray"], None)
    ])

  /** Lines 376-390: window functions. */
  const WindowFunctionsNames: set<string> := {"rank", "row_number", "dense_rank", "percent_rank", "cume_dist", "ntile", "lag", "lead", "first_value", "last_value", "nth_value"}
  const WindowFunctions := Block(
    WindowFunctionsNames,
    [ ShippableFunction("rank", Window, 0, [], None)
    , ShippableFunction("row_number", Window, 0, [], None)
    , ShippableFunction("dense_rank", Window, 0, [], None)
    , ShippableFunction("percent_rank", Window, 0, [], None)
    , ShippableFunction("cume_dist", Window, 0, [], None)
    , ShippableFunction("ntile", Window, 1, ["int4"], None)
    , ShippableFunction("lag", Window, 1, ["anyelement"], None)
    , ShippableFunction("lag", Window, 2, ["anyelement", "int4"], None)
    , ShippableFunction("lag", Window, 3, ["anycompatible", "int4", "anycompatible"], None)
    , ShippableFunction("lead", Window, 1, ["anyelement"], None)
    , ShippableFunction("lead", Window, 2, ["anyelement", "int4"], None)
    , ShippableFunction("lead", Window, 3, ["anycompatible", "int4", "anycompatible"], None)
    , ShippableFunction("first_value", Window, 1, ["anyelement"], None)
    , ShippableFunction("last_value", Window, 1, ["anyelement"], None)
    , ShippableFunction("nth_value", Window, 2, ["anyelement", "int4"], None)
    ])

  /** Lines 392-397: generate_series. */
  const GenerateSeriesNames: set<string> := {"generate_series"}
  const GenerateSeries := Block(
    GenerateSeriesNames,
    [ ShippableFunction("generate_series", Func, 2, ["int4", "int4"], None)
    , ShippableFunction("generate_series", Func, 3, ["int4", "int4", "int4"], None)
    , ShippableFunction("generate_series", Func, 2, ["int8", "int8"], None)
    , ShippableFunction("generate_series", Func, 3, ["int8", "int8", "int8"], None)
    , ShippableFunction("generate_series", Func, 3, ["timestamp", "timestamp", "interval"], None)
    , ShippableFunction("generate_series", Func, 3, ["timestamptz", "timestamptz", "interval"], None)
    ])

  /** Lines 400-412: text functions ascii to md5. */
  const TextAsciiToMd5Names: set<string> := {"ascii", "bit_length", "btrim", "chr", "concat_ws", "left", "lower", "lpad", "ltrim", "md5"}
  const TextAsciiToMd5 := Block(
    TextAsciiToMd5Names,
    [ ShippableFunction("ascii", Func, 1, ["text"], None)
    , ShippableFunction("bit_length", Func, 1, ["text"], None)
    , ShippableFunction("btrim", Func, 1, ["text"], None)
    , ShippableFunction("btrim", Func, 2, ["text", "text"], None)
    , ShippableFunction("chr", Func, 1, ["int4"], None)
    , ShippableFunction("concat_ws", Func, 2, ["text", "any"], Some(Concat))
    , ShippableFunction("left", Func, 2, ["text", "int4"], None)
    , ShippableFunction("lower", Func, 1, ["text"], None)
    , ShippableFunction("lpad", Func, 2, ["text", "int4"], None)
    , ShippableFunction("lpad", Func, 3, ["text", "int4", "text"], None)
    , ShippableFunction("ltrim", Func, 1, ["text"], None)
    , ShippableFunction("ltrim", Func, 2, ["text", "text"], None)
    , ShippableFunction("md5", Func, 1, ["text"], None)
    ])

  /** Lines 413-431: text functions position to upper. */
  const TextPositionToUpperNames: set<string> := {"position", "regexp_like", "repeat", "replace", "reverse", "right", "rpad", "rtrim", "split_part", "starts_with", "strpos", "substr", "substring", "upper"}
  const TextPositionToUpper := Block(
    TextPositionToUpperNames,
    [ ShippableFunction("position", Func, 2, ["text", "text"], None)
    , ShippableFunction("regexp_like", Func, 2, ["text", "text"], None)
    , ShippableFunction("regexp_like", Func, 3, ["text", "text", "text"], None)
    , ShippableFunction("repeat", Func, 2, ["text", "int4"], None)
    , ShippableFunction("replace", Func, 3, ["text", "text", "text"], None)
    , ShippableFunction("reverse", Func, 1, ["text"], None)
    , ShippableFunction("right", Func, 2, ["text", "int4"], None)
    , ShippableFunction("rpad", Func, 2, ["text", "int4"], None)
    , ShippableFunction("rpad", Func, 3, ["text", "int4", "text"], None)
    , ShippableFunction("rtrim", Func, 1, ["text"], None)
    , ShippableFunction("rtrim", Func, 2, ["text", "text"], None)
    , ShippableFunction("split_part", Func, 3, ["text", "text", "int4"], None)
    , ShippableFunction("starts_with", Func, 2, ["text", "text"], None)
    , ShippableFunction("strpos", Func, 2, ["text", "text"], None)
    , ShippableFunction("substr", Func, 2, ["text", "int4"], None)
    , ShippableFunction("substr", Func, 3, ["text", "int4", "int4"], None)
    , ShippableFunction("substring", Func, 2, ["text", "int4"], None)
    , ShippableFunction("substring", Func, 3, ["text", "int4", "int4"], None)
    , ShippableFunction("upper", Func, 1, ["text"], None)
    ])

  /** Lines 434-439: json, encode and decode. */
  const JsonEncodeDecodeNames: set<string> := {"json_array_length", "jsonb_array_length", "encode", "decode"}
  const JsonEncodeDecode := Block(
    JsonEncodeDecodeNames,
    [ ShippableFunction("json_array_length", Func, 1, ["json"], None)
    , ShippableFunction("jsonb_array_length", Func, 1, ["jsonb"], None)
    , ShippableFunction("encode", Func, 2, ["bytea", "text"], Some(Encode))
    , ShippableFunction("decode", Func, 2, ["text", "text"], Some(Decode))
    ])

  /** The blocks in source order. */
  const Blocks: seq<Block> := [
    CountAvgSum,
    MinAggregates,
    MaxAggregates,
    StddevAggregates,
    VarianceAggregates,
    StatisticalAggregates,
    NumericFloatCasts,
    IntegerCasts,
    TextCasts,
    DateTimeCasts,
    DateTimeFields,
    DateTimeFormatting,
    RegexpConcatBool,
    MathAbsToExp,
    MathFloorToTrunc,
    RandomTrig,
    ArrayFunctions,
    WindowFunctions,
    GenerateSeries,
    TextAsciiToMd5,
    TextPositionToUpper,
    JsonEncodeDecode
  ]

  /** ShippableBuiltinProcs: every entry of the table, in source order. */
  const ShippableBuiltinProcs: seq<ShippableFunction> := Entries(Blocks)

  /**
   * GetShippableBuiltinFunctions: hands out the table and writes its number
   * of entries to the size out-parameter.
   */
  method GetShippableBuiltinFunctions() returns (procs: seq<ShippableFunction>, size: nat)
    ensures procs == ShippableBuiltinProcs
    ensures size == |procs|
  {
    size := |ShippableBuiltinProcs|;
    procs := ShippableBuiltinProcs;
  }

  // Checks of the blocks. For each block: its entries are named in its set
  // of names, well formed and pairwise distinct, and its names differ from
  // the names of every later block.

  lemma CountAvgSumNamed()
    ensures var s := CountAvgSum.rows; forall i :: 0 <= i < |s| ==> s[i].name in CountAvgSumNames
  {
  }

  lemma CountAvgSumWellFormed1()
    ensures var s := CountAvgSum.rows;
      forall i :: 0 <= i < 8 && i < |s| ==> s[i].nargs == |s[i].argtypes| && s[i].validator == ExpectedValidator(s[i])
  {
  }

  lemma CountAvgSumWellFormed2()
    ensures var s := CountAvgSum.rows;
      forall i :: 8 <= i < |s| ==> s[i].nargs == |s[i].argtypes| && s[i].validator == ExpectedValidator(s[i])
  {
  }

  lemma CountAvgSumDistinct()
    ensures var s := CountAvgSum.rows;
      forall i, j :: 0 <= i < j < |s| ==>
        s[i].name != s[j].name || s[i].kind != s[j].kind || s[i].argtypes != s[j].argtypes
  {
  }

  lemma CountAvgSumApart1()
    ensures forall x :: x in CountAvgSumNames ==>
      x !in MinAggregatesNames
      && x !in MaxAggregatesNames
      && x !in StddevAggregatesNames
      && x !in VarianceAggregatesNames
      && x !in StatisticalAggregatesNames
      && x !in NumericFloatCastsNames
      && x !in IntegerCastsNames
      && x !in TextCastsNames
      && x !in DateTimeCastsNames
      && x !in DateTimeFieldsNames
      && x !in DateTimeFormattingNames
      && x !in RegexpConcatBoolNames
      && x !in MathAbsToExpNames
      && x !in MathFloorToTruncNames
      && x !in RandomTrigNames
  {
  }

  lemma CountAvgSumApart2()
    ensures forall x :: x in CountAvgSumNames ==>
      x !in ArrayFunctionsNames
      && x !in WindowFunctionsNames
      && x !in GenerateSeriesNames
      && x !in TextAsciiToMd5Names
      && x !in TextPositionToUpperNames
      && x !in JsonEncodeDecodeNames
  {
  }

  lemma CountAvgSumChecked()
    ensures BlockOk(Blocks[0]) && DisjointFromLater(Blocks, 0)
  {
    CountAvgSumNamed();
    CountAvgSumWellFormed1();
    CountAvgSumWellFormed2();
    CountAvgSumDistinct();
    CountAvgSumApart1();
    CountAvgSumApart2();
  }

  lemma MinAggregatesNamed()
    ensures var s := MinAggregates.rows; forall i :: 0 <= i < |s| ==> s[i].name in MinAggregatesNames
  {
  }

  lemma MinAggregatesWellFormed1()
    ensures var s := MinAggregates.rows;
      forall i :: 0 <= i < 8 && i < |s| ==> s[i].nargs == |s[i].argtypes| && s[i].validator == ExpectedValidator(s[i])
  {
  }

  lemma MinAggregatesWellFormed2()
    ensures var s := MinAggregates.rows;
      forall i :: 8 <= i < |s| ==> s[i].nargs == |s[i].argtypes| && s[i].validator == ExpectedValidator(s[i])
  {
  }

  lemma MinAggregatesDistinct()
    ensures var s := MinAggregates.rows;
      forall i, j :: 0 <= i < j < |s| ==>
        s[i].name != s[j].name || s[i].kind != s[j].kind || s[i].argtypes != s[j].argtypes
  {
  }

  lemma MinAggregatesApart()
    ensures forall x :: x in MinAggregatesNames ==>
      x !in MaxAggregatesNames
      && x !in StddevAggregatesNames
      && x !in VarianceAggregatesNames
      && x !in StatisticalAggregatesNames
      && x !in NumericFloatCastsNames
      && x !in IntegerCastsNames
      && x !in TextCastsNames
      && x !in DateTimeCastsNames
      && x !in DateTimeFieldsNames
      && x !in DateTimeFormattingNames
      && x !in RegexpConcatBoolNames
      && x !in MathAbsToExpNames
      && x !in MathFloorToTruncNames
      && x !in RandomTrigNames
      && x !in ArrayFunctionsNames
      && x !in WindowFunctionsNames
      && x !in GenerateSeriesNames
      && x !in TextAsciiToMd5Names
      && x !in TextPositionToUpperNames
      && x !in JsonEncodeDecodeNames
  {
  }

  lemma MinAggregatesChecked()
    ensures BlockOk(Blocks[1]) && DisjointFromLater(Blocks, 1)
  {
    MinAggregatesNamed();
    MinAggregatesWellFormed1();
    MinAggregatesWellFormed2();
    MinAggregatesDistinct();
    MinAggregatesApart();
  }

  lemma MaxAggregatesNamed()
    ensures var s := MaxAggregates.rows; forall i :: 0 <= i < |s| ==> s[i].name in MaxAggregatesNames
  {
  }

  lemma MaxAggregatesWellFormed1()
    ensures var s := MaxAggregates.rows;
      forall i :: 0 <= i < 8 && i < |s| ==> s[i].nargs == |s[i].argtypes| && s[i].validator == ExpectedValidator(s[i])
  {
  }

  lemma MaxAggregatesWellFormed2()
    ensures var s := MaxAggregates.rows;
      forall i :: 8 <= i < |s| ==> s[i].nargs == |s[i].argtypes| && s[i].validator == ExpectedValidator(s[i])
  {
  }

  lemma MaxAggregatesDistinct()
    ensures var s := MaxAggregates.rows;
      forall i, j :: 0 <= i < j < |s| ==>
        s[i].name != s[j].name || s[i].kind != s[j].kind || s[i].argtypes != s[j].argtypes
  {
  }

  lemma MaxAggregatesApart()
    ensures forall x :: x in MaxAggregatesNames ==>
      x !in StddevAggregatesNames
      && x !in VarianceAggregatesNames
      && x !in StatisticalAggregatesNames
      && x !in NumericFloatCastsNames
      && x !in IntegerCastsNames
      && x !in TextCastsNames
      && x !in DateTimeCastsNames
      && x !in DateTimeFieldsNames
      && x !in DateTimeFormattingNames
      && x !in RegexpConcatBoolNames
      && x !in MathAbsToExpNames
      && x !in MathFloorToTruncNames
      && x !in RandomTrigNames
      && x !in ArrayFunctionsNames
      && x !in WindowFunctionsNames
      && x !in GenerateSeriesNames
      && x !in TextAsciiToMd5Names
      && x !in TextPositionToUpperNames
      && x !in JsonEncodeDecodeNames
  {
  }

  lemma MaxAggregatesChecked()
    ensures BlockOk(Blocks[2]) && DisjointFromLater(Blocks, 2)
  {
    MaxAggregatesNamed();
    MaxAggregatesWellFormed1();
    MaxAggregatesWellFormed2();
    MaxAggregatesDistinct();
    MaxAggregatesApart();
  }

  lemma StddevAggregatesNamed()
    ensures var s := StddevAggregates.rows; forall i :: 0 <= i < |s| ==> s[i].name in StddevAggregatesNames
  {
  }

  lemma StddevAggregatesWellFormed1()
    ensures var s := StddevAggregates.rows;
      forall i :: 0 <= i < 6 && i < |s| ==> s[i].nargs == |s[i].argtypes| && s[i].validator == ExpectedValidator(s[i])
  {
  }

  lemma StddevAggregatesWellFormed2()
    ensures var s := StddevAggregates.rows;
      forall i :: 6 <= i < 12 && i < |s| ==> s[i].nargs == |s[i].argtypes| && s[i].validator == ExpectedValidator(s[i])
  {
  }

  lemma StddevAggregatesWellFormed3()
    ensures var s := StddevAggregates.rows;
      forall i :: 12 <= i < |s| ==> s[i].nargs == |s[i].argtypes| && s[i].validator == ExpectedValidator(s[i])
  {
  }

  lemma StddevAggregatesDistinct()
    ensures var s := StddevAggregates.rows;
      forall i, j :: 0 <= i < j < |s| ==>
        s[i].name != s[j].name || s[i].kind != s[j].kind || s[i].argtypes != s[j].argtypes
  {
  }

  lemma StddevAggregatesApart1()
    ensures forall x :: x in StddevAggregatesNames ==>
      x !in VarianceAggregatesNames
      && x !in StatisticalAggregatesNames
      && x !in NumericFloatCastsNames
      && x !in IntegerCastsNames
      && x !in TextCastsNames
      && x !in DateTimeCastsNames
      && x !in DateTimeFieldsNames
      && x !in DateTimeFormattingNames
      && x !in RegexpConcatBoolNames
      && x !in MathAbsToExpNames
      && x !in MathFloorToTruncNames
      && x !in RandomTrigNames
      && x !in ArrayFunctionsNames
      && x !in WindowFunctionsNames
      && x !in GenerateSeriesNames
      && x !in TextAsciiToMd5Names
  {
  }

  lemma StddevAggregatesApart2()
    ensures forall x :: x in StddevAggregatesNames ==>
      x !in TextPositionToUpperNames
      && x !in JsonEncodeDecodeNames
  {
  }

  lemma StddevAggregatesChecked()
    ensures BlockOk(Blocks[3]) && DisjointFromLater(Blocks, 3)
  {
    StddevAggregatesNamed();
    StddevAggregatesWellFormed1();
    StddevAggregatesWellFormed2();
    StddevAggregatesWellFormed3();
    StddevAggregatesDistinct();
    StddevAggregatesApart1();
    StddevAggregatesApart2();
  }

  lemma VarianceAggregatesNamed()
    ensures var s := VarianceAggregates.rows; forall i :: 0 <= i < |s| ==> s[i].name in VarianceAggregatesNames
  {
  }

  lemma VarianceAggregatesWellFormed1()
    ensures var s := VarianceAggregates.rows;
      forall i :: 0 <= i < 6 && i < |s| ==> s[i].nargs == |s[i].argtypes| && s[i].validator == ExpectedValidator(s[i])
  {
  }

  lemma VarianceAggregatesWellFormed2()
    ensures var s := VarianceAggregates.rows;
      forall i :: 6 <= i < 12 && i < |s| ==> s[i].nargs == |s[i].argtypes| && s[i].validator == ExpectedValidator(s[i])
  {
  }

  lemma VarianceAggregatesWellFormed3()
    ensures var s := VarianceAggregates.rows;
      forall i :: 12 <= i < |s| ==> s[i].nargs == |s[i].argtypes| && s[i].validator == ExpectedValidator(s[i])
  {
  }

  lemma VarianceAggregatesDistinct()
    ensures var s := VarianceAggregates.rows;
      forall i, j :: 0 <= i < j < |s| ==>
        s[i].name != s[j].name || s[i].kind != s[j].kind || s[i].argtypes != s[j].argtypes
  {
  }

  lemma VarianceAggregatesApart1()
    ensures forall x :: x in VarianceAggregatesNames ==>
      x !in StatisticalAggregatesNames
      && x !in NumericFloatCastsNames
      && x !in IntegerCastsNames
      && x !in TextCastsNames
      && x !in DateTimeCastsNames
      && x !in DateTimeFieldsNames
      && x !in DateTimeFormattingNames
      && x !in RegexpConcatBoolNames
      && x !in MathAbsToExpNames
      && x !in MathFloorToTruncNames
      && x !in RandomTrigNames
      && x !in ArrayFunctionsNames
      && x !in WindowFunctionsNames
      && x !in GenerateSeriesNames
      && x !in TextAsciiToMd5Names
  {
  }

  lemma VarianceAggregatesApart2()
    ensures forall x :: x in VarianceAggregatesNames ==>
      x !in TextPositionToUpperNames
      && x !in JsonEncodeDecodeNames
  {
  }

  lemma VarianceAggregatesChecked()
    ensures BlockOk(Blocks[4]) && DisjointFromLater(Blocks, 4)
  {
    VarianceAggregatesNamed();
    VarianceAggregatesWellFormed1();
    VarianceAggregatesWellFormed2();
    VarianceAggregatesWellFormed3();
    VarianceAggregatesDistinct();
    VarianceAggregatesApart1();
    VarianceAggregatesApart2();
  }

  lemma StatisticalAggregatesNamed()
    ensures var s := StatisticalAggregates.rows; forall i :: 0 <= i < |s| ==> s[i].name in StatisticalAggregatesNames
  {
  }

  lemma StatisticalAggregatesWellFormed1()
    ensures var s := StatisticalAggregates.rows;
      forall i :: 0 <= i < 6 && i < |s| ==> s[i].nargs == |s[i].argtypes| && s[i].validator == ExpectedValidator(s[i])
  {
  }

  lemma StatisticalAggregatesWellFormed2()
    ensures var s := StatisticalAggregates.rows;
      forall i :: 6 <= i < 12 && i < |s| ==> s[i].nargs == |s[i].argtypes| && s[i].validator == ExpectedValidator(s[i])
  {
  }

  lemma StatisticalAggregatesWellFormed3()
    ensures var s := StatisticalAggregates.rows;
      forall i :: 12 <= i < |s| ==> s[i].nargs == |s[i].argtypes| && s[i].validator == ExpectedValidator(s[i])
  {
  }

  lemma StatisticalAggregatesDistinct()
    ensures var s := StatisticalAggregates.rows;
      forall i, j :: 0 <= i < j < |s| ==>
        s[i].name != s[j].name || s[i].kind != s[j].kind || s[i].argtypes != s[j].argtypes
  {
  }

  lemma StatisticalAggregatesApart1()
    ensures forall x :: x in StatisticalAggregatesNames ==>
      x !in NumericFloatCastsNames
      && x !in IntegerCastsNames
      && x !in TextCastsNames
      && x !in DateTimeCastsNames
      && x !in DateTimeFieldsNames
      && x !in DateTimeFormattingNames
  {
  }

  lemma StatisticalAggregatesApart2()
    ensures forall x :: x in StatisticalAggregatesNames ==>
      x !in RegexpConcatBoolNames
      && x !in MathAbsToExpNames
      && x !in MathFloorToTruncNames
  {
  }

  lemma StatisticalAggregatesApart3()
    ensures forall x :: x in StatisticalAggregatesNames ==>
      x !in RandomTrigNames
  {
  }

  lemma StatisticalAggregatesApart4()
    ensures forall x :: x in StatisticalAggregatesNames ==>
      x !in ArrayFunctionsNames
      && x !in WindowFunctionsNames
      && x !in GenerateSeriesNames
  {
  }

  lemma StatisticalAggregatesApart5()
    ensures forall x :: x in StatisticalAggregatesNames ==>
      x !in TextAsciiToMd5Names
  {
  }

  lemma StatisticalAggregatesApart6()
    ensures forall x :: x in StatisticalAggregatesNames ==>
      x !in TextPositionToUpperNames
      && x !in JsonEncodeDecodeNames
  {
  }

  lemma StatisticalAggregatesChecked()
    ensures BlockOk(Blocks[5]) && DisjointFromLater(Blocks, 5)
  {
    StatisticalAggregatesNamed();
    StatisticalAggregatesWellFormed1();
    StatisticalAggregatesWellFormed2();
    StatisticalAggregatesWellFormed3();
    StatisticalAggregatesDistinct();
    StatisticalAggregatesApart1();
    StatisticalAggregatesApart2();
    StatisticalAggregatesApart3();
    StatisticalAggregatesApart4();
    StatisticalAggregatesApart5();
    StatisticalAggregatesApart6();
  }

  lemma NumericFloatCastsNamed()
    ensures var s := NumericFloatCasts.rows; forall i :: 0 <= i < |s| ==> s[i].name in NumericFloatCastsNames
  {
  }

  lemma NumericFloatCastsWellFormed1()
    ensures var s := NumericFloatCasts.rows;
      forall i :: 0 <= i < 8 && i < |s| ==> s[i].nargs == |s[i].argtypes| && s[i].validator == ExpectedValidator(s[i])
  {
  }

  lemma NumericFloatCastsWellFormed2()
    ensures var s := NumericFloatCasts.rows;
      forall i :: 8 <= i < |s| ==> s[i].nargs == |s[i].argtypes| && s[i].validator == ExpectedValidator(s[i])
  {
  }

  lemma NumericFloatCastsDistinct()
    ensures var s := NumericFloatCasts.rows;
      forall i, j :: 0 <= i < j < |s| ==>
        s[i].name != s[j].name || s[i].kind != s[j].kind || s[i].argtypes != s[j].argtypes
  {
  }

  lemma NumericFloatCastsApart()
    ensures forall x :: x in NumericFloatCastsNames ==>
      x !in IntegerCastsNames
      && x !in TextCastsNames
      && x !in DateTimeCastsNames
      && x !in DateTimeFieldsNames
      && x !in DateTimeFormattingNames
      && x !in RegexpConcatBoolNames
      && x !in MathAbsToExpNames
      && x !in MathFloorToTruncNames
      && x !in RandomTrigNames
      && x !in ArrayFunctionsNames
      && x !in WindowFunctionsNames
      && x !in GenerateSeriesNames
      && x !in TextAsciiToMd5Names
      && x !in TextPositionToUpperNames
      && x !in JsonEncodeDecodeNames
  {
  }

  lemma NumericFloatCastsChecked()
    ensures BlockOk(Blocks[6]) && DisjointFromLater(Blocks, 6)
  {
    NumericFloatCastsNamed();
    NumericFloatCastsWellFormed1();
    NumericFloatCastsWellFormed2();
    NumericFloatCastsDistinct();
    NumericFloatCastsApart();
  }

  lemma IntegerCastsNamed()
    ensures var s := IntegerCasts.rows; forall i :: 0 <= i < |s| ==> s[i].name in IntegerCastsNames
  {
  }

  lemma IntegerCastsWellFormed1()
    ensures var s := IntegerCasts.rows;
      forall i :: 0 <= i < 6 && i < |s| ==> s[i].nargs == |s[i].argtypes| && s[i].validator == ExpectedValidator(s[i])
  {
  }

  lemma IntegerCastsWellFormed2()
    ensures var s := IntegerCasts.rows;
      forall i :: 6 <= i < 12 && i < |s| ==> s[i].nargs == |s[i].argtypes| && s[i].validator == ExpectedValidator(s[i])
  {
  }

  lemma IntegerCastsWellFormed3()
    ensures var s := IntegerCasts.rows;
      forall i :: 12 <= i < |s| ==> s[i].nargs == |s[i].argtypes| && s[i].validator == ExpectedValidator(s[i])
  {
  }

  lemma IntegerCastsDistinct()
    ensures var s := IntegerCasts.rows;
      forall i, j :: 0 <= i < j < |s| ==>
        s[i].name != s[j].name || s[i].kind != s[j].kind || s[i].argtypes != s[j].argtypes
  {
  }

  lemma IntegerCastsApart()
    ensures forall x :: x in IntegerCastsNames ==>
      x !in TextCastsNames
      && x !in DateTimeCastsNames
      && x !in DateTimeFieldsNames
      && x !in DateTimeFormattingNames
      && x !in RegexpConcatBoolNames
      && x !in MathAbsToExpNames
      && x !in MathFloorToTruncNames
      && x !in RandomTrigNames
      && x !in ArrayFunctionsNames
      && x !in WindowFunctionsNames
      && x !in GenerateSeriesNames
      && x !in TextAsciiToMd5Names
      && x !in TextPositionToUpperNames
      && x !in JsonEncodeDecodeNames
  {
  }

  lemma IntegerCastsChecked()
    ensures BlockOk(Blocks[7]) && DisjointFromLater(Blocks, 7)
  {
    IntegerCastsNamed();
    IntegerCastsWellFormed1();
    IntegerCastsWellFormed2();
    IntegerCastsWellFormed3();
    IntegerCastsDistinct();
    IntegerCastsApart();
  }

  lemma TextCastsNamed()
    ensures var s := TextCasts.rows; forall i :: 0 <= i < |s| ==> s[i].name in TextCastsNames
  {
  }

  lemma TextCastsWellFormed()
    ensures var s := TextCasts.rows;
      forall i :: 0 <= i < |s| ==> s[i].nargs == |s[i].argtypes| && s[i].validator == ExpectedValidator(s[i])
  {
  }

  lemma TextCastsDistinct()
    ensures var s := TextCasts.rows;
      forall i, j :: 0 <= i < j < |s| ==>
        s[i].name != s[j].name || s[i].kind != s[j].kind || s[i].argtypes != s[j].argtypes
  {
  }

  lemma TextCastsApart()
    ensures forall x :: x in TextCastsNames ==>
      x !in DateTimeCastsNames
      && x !in DateTimeFieldsNames
      && x !in DateTimeFormattingNames
      && x !in RegexpConcatBoolNames
      && x !in MathAbsToExpNames
      && x !in MathFloorToTruncNames
      && x !in RandomTrigNames
      && x !in ArrayFunctionsNames
      && x !in WindowFunctionsNames
      && x !in GenerateSeriesNames
      && x !in TextAsciiToMd5Names
      && x !in TextPositionToUpperNames
      && x !in JsonEncodeDecodeNames
  {
  }

  lemma TextCastsChecked()
    ensures BlockOk(Blocks[8]) && DisjointFromLater(Blocks, 8)
  {
    TextCastsNamed();
    TextCastsWellFormed();
    TextCastsDistinct();
    TextCastsApart();
  }

  lemma DateTimeCastsNamed()
    ensures var s := DateTimeCasts.rows; forall i :: 0 <= i < |s| ==> s[i].name in DateTimeCastsNames
  {
  }

  lemma DateTimeCastsWellFormed1()
    ensures var s := DateTimeCasts.rows;
      forall i :: 0 <= i < 5 && i < |s| ==> s[i].nargs == |s[i].argtypes| && s[i].validator == ExpectedValidator(s[i])
  {
  }

  lemma DateTimeCastsWellFormed2()
    ensures var s := DateTimeCasts.rows;
      forall i :: 5 <= i < |s| ==> s[i].nargs == |s[i].argtypes| && s[i].validator == ExpectedValidator(s[i])
  {
  }

  lemma DateTimeCastsDistinct()
    ensures var s := DateTimeCasts.rows;
      forall i, j :: 0 <= i < j < |s| ==>
        s[i].name != s[j].name || s[i].kind != s[j].kind || s[i].argtypes != s[j].argtypes
  {
  }

  lemma DateTimeCastsApart1()
    ensures forall x :: x in DateTimeCastsNames ==>
      x !in DateTimeFieldsNames
      && x !in DateTimeFormattingNames
      && x !in RegexpConcatBoolNames
      && x !in MathAbsToExpNames
      && x !in MathFloorToTruncNames
      && x !in RandomTrigNames
      && x !in ArrayFunctionsNames
      && x !in WindowFunctionsNames
      && x !in GenerateSeriesNames
  {
  }

  lemma DateTimeCastsApart2()
    ensures forall x :: x in DateTimeCastsNames ==>
      x !in TextAsciiToMd5Names
      && x !in TextPositionToUpperNames
      && x !in JsonEncodeDecodeNames
  {
  }

  lemma DateTimeCastsChecked()
    ensures BlockOk(Blocks[9]) && DisjointFromLater(Blocks, 9)
  {
    DateTimeCastsNamed();
    DateTimeCastsWellFormed1();
    DateTimeCastsWellFormed2();
    DateTimeCastsDistinct();
    DateTimeCastsApart1();
    DateTimeCastsApart2();
  }

  lemma DateTimeFieldsNamed()
    ensures var s := DateTimeFields.rows; forall i :: 0 <= i < |s| ==> s[i].name in DateTimeFieldsNames
  {
  }

  lemma DateTimeFieldsWellFormed1()
    ensures var s := DateTimeFields.rows;
      forall i :: 0 <= i < 8 && i < |s| ==> s[i].nargs == |s[i].argtypes| && s[i].validator == ExpectedValidator(s[i])
  {
  }

  lemma DateTimeFieldsWellFormed2()
    ensures var s := DateTimeFields.rows;
      forall i :: 8 <= i < |s| ==> s[i].nargs == |s[i].argtypes| && s[i].validator == ExpectedValidator(s[i])
  {
  }

  lemma DateTimeFieldsDistinct()
    ensures var s := DateTimeFields.rows;
      forall i, j :: 0 <= i < j < |s| ==>
        s[i].name != s[j].name || s[i].kind != s[j].kind || s[i].argtypes != s[j].argtypes
  {
  }

  lemma DateTimeFieldsApart1()
    ensures forall x :: x in DateTimeFieldsNames ==>
      x !in DateTimeFormattingNames
      && x !in RegexpConcatBoolNames
      && x !in MathAbsToExpNames
      && x !in MathFloorToTruncNames
      && x !in RandomTrigNames
      && x !in ArrayFunctionsNames
      && x !in WindowFunctionsNames
      && x !in GenerateSeriesNames
  {
  }

  lemma DateTimeFieldsApart2()
    ensures forall x :: x in DateTimeFieldsNames ==>
      x !in TextAsciiToMd5Names
      && x !in TextPositionToUpperNames
      && x !in JsonEncodeDecodeNames
  {
  }

  lemma DateTimeFieldsChecked()
    ensures BlockOk(Blocks[10]) && DisjointFromLater(Blocks, 10)
  {
    DateTimeFieldsNamed();
    DateTimeFieldsWellFormed1();
    DateTimeFieldsWellFormed2();
    DateTimeFieldsDistinct();
    DateTimeFieldsApart1();
    DateTimeFieldsApart2();
  }

  lemma DateTimeFormattingNamed()
    ensures var s := DateTimeFormatting.rows; forall i :: 0 <= i < |s| ==> s[i].name in DateTimeFormattingNames
  {
  }

  lemma DateTimeFormattingWellFormed()
    ensures var s := DateTimeFormatting.rows;
      forall i :: 0 <= i < |s| ==> s[i].nargs == |s[i].argtypes| && s[i].validator == ExpectedValidator(s[i])
  {
  }

  lemma DateTimeFormattingDistinct()
    ensures var s := DateTimeFormatting.rows;
      forall i, j :: 0 <= i < j < |s| ==>
        s[i].name != s[j].name || s[i].kind != s[j].kind || s[i].argtypes != s[j].argtypes
  {
  }

  lemma DateTimeFormattingApart()
    ensures forall x :: x in DateTimeFormattingNames ==>
      x !in RegexpConcatBoolNames
      && x !in MathAbsToExpNames
      && x !in MathFloorToTruncNames
      && x !in RandomTrigNames
      && x !in ArrayFunctionsNames
      && x !in WindowFunctionsNames
      && x !in GenerateSeriesNames
      && x !in TextAsciiToMd5Names
      && x !in TextPositionToUpperNames
      && x !in JsonEncodeDecodeNames
  {
  }

  lemma DateTimeFormattingChecked()
    ensures BlockOk(Blocks[11]) && DisjointFromLater(Blocks, 11)
  {
    DateTimeFormattingNamed();
    DateTimeFormattingWellFormed();
    DateTimeFormattingDistinct();
    DateTimeFormattingApart();
  }

  lemma RegexpConcatBoolNamed()
    ensures var s := RegexpConcatBool.rows; forall i :: 0 <= i < |s| ==> s[i].name in RegexpConcatBoolNames
  {
  }

  lemma RegexpConcatBoolWellFormed()
    ensures var s := RegexpConcatBool.rows;
      forall i :: 0 <= i < |s| ==> s[i].nargs == |s[i].argtypes| && s[i].validator == ExpectedValidator(s[i])
  {
  }

  lemma RegexpConcatBoolDistinct()
    ensures var s := RegexpConcatBool.rows;
      forall i, j :: 0 <= i < j < |s| ==>
        s[i].name != s[j].name || s[i].kind != s[j].kind || s[i].argtypes != s[j].argtypes
  {
  }

  lemma RegexpConcatBoolApart1()
    ensures forall x :: x in RegexpConcatBoolNames ==>
      x !in MathAbsToExpNames
      && x !in MathFloorToTruncNames
      && x !in RandomTrigNames
      && x !in ArrayFunctionsNames
      && x !in WindowFunctionsNames
      && x !in GenerateSeriesNames
      && x !in TextAsciiToMd5Names
  {
  }

  lemma RegexpConcatBoolApart2()
    ensures forall x :: x in RegexpConcatBoolNames ==>
      x !in TextPositionToUpperNames
      && x !in JsonEncodeDecodeNames
  {
  }

  lemma RegexpConcatBoolChecked()
    ensures BlockOk(Blocks[12]) && DisjointFromLater(Blocks, 12)
  {
    RegexpConcatBoolNamed();
    RegexpConcatBoolWellFormed();
    RegexpConcatBoolDistinct();
    RegexpConcatBoolApart1();
    RegexpConcatBoolApart2();
  }

  lemma MathAbsToExpNamed()
    ensures var s := MathAbsToExp.rows; forall i :: 0 <= i < |s| ==> s[i].name in MathAbsToExpNames
  {
  }

  lemma MathAbsToExpWellFormed1()
    ensures var s := MathAbsToExp.rows;
      forall i :: 0 <= i < 8 && i < |s| ==> s[i].nargs == |s[i].argtypes| && s[i].validator == ExpectedValidator(s[i])
  {
  }

  lemma MathAbsToExpWellFormed2()
    ensures var s := MathAbsToExp.rows;
      forall i :: 8 <= i < |s| ==> s[i].nargs == |s[i].argtypes| && s[i].validator == ExpectedValidator(s[i])
  {
  }

  lemma MathAbsToExpDistinct()
    ensures var s := MathAbsToExp.rows;
      forall i, j :: 0 <= i < j < |s| ==>
        s[i].name != s[j].name || s[i].kind != s[j].kind || s[i].argtypes != s[j].argtypes
  {
  }

  lemma MathAbsToExpApart1()
    ensures forall x :: x in MathAbsToExpNames ==>
      x !in MathFloorToTruncNames
      && x !in RandomTrigNames
      && x !in ArrayFunctionsNames
      && x !in WindowFunctionsNames
      && x !in GenerateSeriesNames
  {
  }

  lemma MathAbsToExpApart2()
    ensures forall x :: x in MathAbsToExpNames ==>
      x !in TextAsciiToMd5Names
      && x !in TextPositionToUpperNames
      && x !in JsonEncodeDecodeNames
  {
  }

  lemma MathAbsToExpChecked()
    ensures BlockOk(Blocks[13]) && DisjointFromLater(Blocks, 13)
  {
    MathAbsToExpNamed();
    MathAbsToExpWellFormed1();
    MathAbsToExpWellFormed2();
    MathAbsToExpDistinct();
    MathAbsToExpApart1();
    MathAbsToExpApart2();
  }

  lemma MathFloorToTruncNamed()
    ensures var s := MathFloorToTrunc.rows; forall i :: 0 <= i < |s| ==> s[i].name in MathFloorToTruncNames
  {
  }

  lemma MathFloorToTruncWellFormed1()
    ensures var s := MathFloorToTrunc.rows;
      forall i :: 0 <= i < 7 && i < |s| ==> s[i].nargs == |s[i].argtypes| && s[i].validator == ExpectedValidator(s[i])
  {
  }

  lemma MathFloorToTruncWellFormed2()
    ensures var s := MathFloorToTrunc.rows;
      forall i :: 7 <= i < 14 && i < |s| ==> s[i].nargs == |s[i].argtypes| && s[i].validator == ExpectedValidator(s[i])
  {
  }

  lemma MathFloorToTruncWellFormed3()
    ensures var s := MathFloorToTrunc.rows;
      forall i :: 14 <= i < |s| ==> s[i].nargs == |s[i].argtypes| && s[i].validator == ExpectedValidator(s[i])
  {
  }

  lemma MathFloorToTruncDistinct()
    ensures var s := MathFloorToTrunc.rows;
      forall i, j :: 0 <= i < j < |s| ==>
        s[i].name != s[j].name || s[i].kind != s[j].kind || s[i].argtypes != s[j].argtypes
  {
  }

  lemma MathFloorToTruncApart1()
    ensures forall x :: x in MathFloorToTruncNames ==>
      x !in RandomTrigNames
      && x !in ArrayFunctionsNames
  {
  }

  lemma MathFloorToTruncApart2()
    ensures forall x :: x in MathFloorToTruncNames ==>
      x !in WindowFunctionsNames
      && x !in GenerateSeriesNames
      && x !in TextAsciiToMd5Names
  {
  }

  lemma MathFloorToTruncApart3()
    ensures forall x :: x in MathFloorToTruncNames ==>
      x !in TextPositionToUpperNames
      && x !in JsonEncodeDecodeNames
  {
  }

  lemma MathFloorToTruncChecked()
    ensures BlockOk(Blocks[14]) && DisjointFromLater(Blocks, 14)
  {
    MathFloorToTruncNamed();
    MathFloorToTruncWellFormed1();
    MathFloorToTruncWellFormed2();
    MathFloorToTruncWellFormed3();
    MathFloorToTruncDistinct();
    MathFloorToTruncApart1();
    MathFloorToTruncApart2();
    MathFloorToTruncApart3();
  }

  lemma RandomTrigNamed()
    ensures var s := RandomTrig.rows; forall i :: 0 <= i < |s| ==> s[i].name in RandomTrigNames
  {
  }

  lemma RandomTrigWellFormed1()
    ensures var s := RandomTrig.rows;
      forall i :: 0 <= i < 6 && i < |s| ==> s[i].nargs == |s[i].argtypes| && s[i].validator == ExpectedValidator(s[i])
  {
  }

  lemma RandomTrigWellFormed2()
    ensures var s := RandomTrig.rows;
      forall i :: 6 <= i < 12 && i < |s| ==> s[i].nargs == |s[i].argtypes| && s[i].validator == ExpectedValidator(s[i])
  {
  }

  lemma RandomTrigWellFormed3()
    ensures var s := RandomTrig.rows;
      forall i :: 12 <= i < |s| ==> s[i].nargs == |s[i].argtypes| && s[i].validator == ExpectedValidator(s[i])
  {
  }

  lemma RandomTrigDistinct()
    ensures var s := RandomTrig.rows;
      forall i, j :: 0 <= i < j < |s| ==>
        s[i].name != s[j].name || s[i].kind != s[j].kind || s[i].argtypes != s[j].argtypes
  {
  }

  lemma RandomTrigApart1()
    ensures forall x :: x in RandomTrigNames ==>
      x !in ArrayFunctionsNames
      && x !in WindowFunctionsNames
      && x !in GenerateSeriesNames
  {
  }

  lemma RandomTrigApart2()
    ensures forall x :: x in RandomTrigNames ==>
      x !in TextAsciiToMd5Names
  {
  }

  lemma RandomTrigApart3()
    ensures forall x :: x in RandomTrigNames ==>
      x !in TextPositionToUpperNames
      && x !in JsonEncodeDecodeNames
  {
  }

  lemma RandomTrigChecked()
    ensures BlockOk(Blocks[15]) && DisjointFromLater(Blocks, 15)
  {
    RandomTrigNamed();
    RandomTrigWellFormed1();
    RandomTrigWellFormed2();
    RandomTrigWellFormed3();
    RandomTrigDistinct();
    RandomTrigApart1();
    RandomTrigApart2();
    RandomTrigApart3();
  }

  lemma ArrayFunctionsNamed()
    ensures var s := ArrayFunctions.rows; forall i :: 0 <= i < |s| ==> s[i].name in ArrayFunctionsNames
  {
  }

  lemma ArrayFunctionsWellFormed()
    ensures var s := ArrayFunctions.rows;
      forall i :: 0 <= i < |s| ==> s[i].nargs == |s[i].argtypes| && s[i].validator == ExpectedValidator(s[i])
  {
  }

  lemma ArrayFunctionsDistinct()
    ensures var s := ArrayFunctions.rows;
      forall i, j :: 0 <= i < j < |s| ==>
        s[i].name != s[j].name || s[i].kind != s[j].kind || s[i].argtypes != s[j].argtypes
  {
  }

  lemma ArrayFunctionsApart()
    ensures forall x :: x in ArrayFunctionsNames ==>
      x !in WindowFunctionsNames
      && x !in GenerateSeriesNames
      && x !in TextAsciiToMd5Names
      && x !in TextPositionToUpperNames
      && x !in JsonEncodeDecodeNames
  {
  }

  lemma ArrayFunctionsChecked()
    ensures BlockOk(Blocks[16]) && DisjointFromLater(Blocks, 16)
  {
    ArrayFunctionsNamed();
    ArrayFunctionsWellFormed();
    ArrayFunctionsDistinct();
    ArrayFunctionsApart();
  }

  lemma WindowFunctionsNamed()
    ensures var s := WindowFunctions.rows; forall i :: 0 <= i < |s| ==> s[i].name in WindowFunctionsNames
  {
  }

  lemma WindowFunctionsWellFormed1()
    ensures var s := WindowFunctions.rows;
      forall i :: 0 <= i < 8 && i < |s| ==> s[i].nargs == |s[i].argtypes| && s[i].validator == ExpectedValidator(s[i])
  {
  }

  lemma WindowFunctionsWellFormed2()
    ensures var s := WindowFunctions.rows;
      forall i :: 8 <= i < |s| ==> s[i].nargs == |s[i].argtypes| && s[i].validator == ExpectedValidator(s[i])
  {
  }

  lemma WindowFunctionsDistinct()
    ensures var s := WindowFunctions.rows;
      forall i, j :: 0 <= i < j < |s| ==>
        s[i].name != s[j].name || s[i].kind != s[j].kind || s[i].argtypes != s[j].argtypes
  {
  }

  lemma WindowFunctionsApart()
    ensures forall x :: x in WindowFunctionsNames ==>
      x !in GenerateSeriesNames
      && x !in TextAsciiToMd5Names
      && x !in TextPositionToUpperNames
      && x !in JsonEncodeDecodeNames
  {
  }

  lemma WindowFunctionsChecked()
    ensures BlockOk(Blocks[17]) && DisjointFromLater(Blocks, 17)
  {
    WindowFunctionsNamed();
    WindowFunctionsWellFormed1();
    WindowFunctionsWellFormed2();
    WindowFunctionsDistinct();
    WindowFunctionsApart();
  }

  lemma GenerateSeriesNamed()
    ensures var s := GenerateSeries.rows; forall i :: 0 <= i < |s| ==> s[i].name in GenerateSeriesNames
  {
  }

  lemma GenerateSeriesWellFormed()
    ensures var s := GenerateSeries.rows;
      forall i :: 0 <= i < |s| ==> s[i].nargs == |s[i].argtypes| && s[i].validator == ExpectedValidator(s[i])
  {
  }

  lemma GenerateSeriesDistinct()
    ensures var s := GenerateSeries.rows;
      forall i, j :: 0 <= i < j < |s| ==>
        s[i].name != s[j].name || s[i].kind != s[j].kind || s[i].argtypes != s[j].argtypes
  {
  }

  lemma GenerateSeriesApart()
    ensures forall x :: x in GenerateSeriesNames ==>
      x !in TextAsciiToMd5Names
      && x !in TextPositionToUpperNames
      && x !in JsonEncodeDecodeNames
  {
  }

  lemma GenerateSeriesChecked()
    ensures BlockOk(Blocks[18]) && DisjointFromLater(Blocks, 18)
  {
    GenerateSeriesNamed();
    GenerateSeriesWellFormed();
    GenerateSeriesDistinct();
    GenerateSeriesApart();
  }

  lemma TextAsciiToMd5Named()
    ensures var s := TextAsciiToMd5.rows; forall i :: 0 <= i < |s| ==> s[i].name in TextAsciiToMd5Names
  {
  }

  lemma TextAsciiToMd5WellFormed1()
    ensures var s := TextAsciiToMd5.rows;
      forall i :: 0 <= i < 7 && i < |s| ==> s[i].nargs == |s[i].argtypes| && s[i].validator == ExpectedValidator(s[i])
  {
  }

  lemma TextAsciiToMd5WellFormed2()
    ensures var s := TextAsciiToMd5.rows;
      forall i :: 7 <= i < |s| ==> s[i].nargs == |s[i].argtypes| && s[i].validator == ExpectedValidator(s[i])
  {
  }

  lemma TextAsciiToMd5Distinct()
    ensures var s := TextAsciiToMd5.rows;
      forall i, j :: 0 <= i < j < |s| ==>
        s[i].name != s[j].name || s[i].kind != s[j].kind || s[i].argtypes != s[j].argtypes
  {
  }

  lemma TextAsciiToMd5Apart()
    ensures forall x :: x in TextAsciiToMd5Names ==>
      x !in TextPositionToUpperNames
      && x !in JsonEncodeDecodeNames
  {
  }

  lemma TextAsciiToMd5Checked()
    ensures BlockOk(Blocks[19]) && DisjointFromLater(Blocks, 19)
  {
    TextAsciiToMd5Named();
    TextAsciiToMd5WellFormed1();
    TextAsciiToMd5WellFormed2();
    TextAsciiToMd5Distinct();
    TextAsciiToMd5Apart();
  }

  lemma TextPositionToUpperNamed()
    ensures var s := TextPositionToUpper.rows; forall i :: 0 <= i < |s| ==> s[i].name in TextPositionToUpperNames
  {
  }

  lemma TextPositionToUpperWellFormed1()
    ensures var s := TextPositionToUpper.rows;
      forall i :: 0 <= i < 7 && i < |s| ==> s[i].nargs == |s[i].argtypes| && s[i].validator == ExpectedValidator(s[i])
  {
  }

  lemma TextPositionToUpperWellFormed2()
    ensures var s := TextPositionToUpper.rows;
      forall i :: 7 <= i < 14 && i < |s| ==> s[i].nargs == |s[i].argtypes| && s[i].validator == ExpectedValidator(s[i])
  {
  }

  lemma TextPositionToUpperWellFormed3()
    ensures var s := TextPositionToUpper.rows;
      forall i :: 14 <= i < |s| ==> s[i].nargs == |s[i].argtypes| && s[i].validator == ExpectedValidator(s[i])
  {
  }

  lemma TextPositionToUpperDistinct()
    ensures var s := TextPositionToUpper.rows;
      forall i, j :: 0 <= i < j < |s| ==>
        s[i].name != s[j].name || s[i].kind != s[j].kind || s[i].argtypes != s[j].argtypes
  {
  }

  lemma TextPositionToUpperApart()
    ensures forall x :: x in TextPositionToUpperNames ==>
      x !in JsonEncodeDecodeNames
  {
  }

  lemma TextPositionToUpperChecked()
    ensures BlockOk(Blocks[20]) && DisjointFromLater(Blocks, 20)
  {
    TextPositionToUpperNamed();
    TextPositionToUpperWellFormed1();
    TextPositionToUpperWellFormed2();
    TextPositionToUpperWellFormed3();
    TextPositionToUpperDistinct();
    TextPositionToUpperApart();
  }

  lemma JsonEncodeDecodeNamed()
    ensures var s := JsonEncodeDecode.rows; forall i :: 0 <= i < |s| ==> s[i].name in JsonEncodeDecodeNames
  {
  }

  lemma JsonEncodeDecodeWellFormed()
    ensures var s := JsonEncodeDecode.rows;
      forall i :: 0 <= i < |s| ==> s[i].nargs == |s[i].argtypes| && s[i].validator == ExpectedValidator(s[i])
  {
  }

  lemma JsonEncodeDecodeDistinct()
    ensures var s := JsonEncodeDecode.rows;
      forall i, j :: 0 <= i < j < |s| ==>
        s[i].name != s[j].name || s[i].kind != s[j].kind || s[i].argtypes != s[j].argtypes
  {
  }

  lemma JsonEncodeDecodeChecked()
    ensures BlockOk(Blocks[21]) && DisjointFromLater(Blocks, 21)
  {
    JsonEncodeDecodeNamed();
    JsonEncodeDecodeWellFormed();
    JsonEncodeDecodeDistinct();
  }

  lemma FirstBlocksOk()
    ensures forall k :: 0 <= k < 6 ==> BlockOk(Blocks[k]) && DisjointFromLater(Blocks, k)
  {
    CountAvgSumChecked();
    MinAggregatesChecked();
    MaxAggregatesChecked();
    StddevAggregatesChecked();
    VarianceAggregatesChecked();
    StatisticalAggregatesChecked();
  }

  lemma SecondBlocksOk()
    ensures forall k :: 6 <= k < 12 ==> BlockOk(Blocks[k]) && DisjointFromLater(Blocks, k)
  {
    NumericFloatCastsChecked();
    IntegerCastsChecked();
    TextCastsChecked();
    DateTimeCastsChecked();
    DateTimeFieldsChecked();
    DateTimeFormattingChecked();
  }

  lemma ThirdBlocksOk()
    ensures forall k :: 12 <= k < 17 ==> BlockOk(Blocks[k]) && DisjointFromLater(Blocks, k)
  {
    RegexpConcatBoolChecked();
    MathAbsToExpChecked();
    MathFloorToTruncChecked();
    RandomTrigChecked();
    ArrayFunctionsChecked();
  }

  lemma LastBlocksOk()
    ensures forall k :: 17 <= k < 22 ==> BlockOk(Blocks[k]) && DisjointFromLater(Blocks, k)
  {
    WindowFunctionsChecked();
    GenerateSeriesChecked();
    TextAsciiToMd5Checked();
    TextPositionToUpperChecked();
    JsonEncodeDecodeChecked();
  }

  /** Every block is well formed and the blocks define pairwise different names. */
  lemma AllBlocksOk()
    ensures BlocksOk(Blocks)
  {
    FirstBlocksOk();
    SecondBlocksOk();
    ThirdBlocksOk();
    LastBlocksOk();
  }
}
