/**
 * What the table ShippableBuiltinProcs guarantees as a whole: entry shape,
 * uniqueness of signatures, where the validators sit, and which signatures
 * are deliberately absent.
 */
module TableFacts {
  import opened Wrappers
  import opened ShippableFunctions
  import opened BuiltinProcs

  /**
   * Every entry's argument count equals the length of its type list, its
   * kind is stored as 'a', 'f' or 'w', and its validator is the one
   * ExpectedValidator assigns to its signature.
   */
  lemma TableWellFormed()
    ensures forall f :: f in ShippableBuiltinProcs ==>
      f.nargs == |f.argtypes| && f.kind.Code() in {'a', 'f', 'w'} && f.validator == ExpectedValidator(f)
  {
    AllBlocksOk();
    EntriesOk(Blocks);
  }

  /** No two entries share name, kind and argument-type list. */
  lemma TableNoDuplicates()
    ensures NoDuplicateSignatures(ShippableBuiltinProcs)
  {
    AllBlocksOk();
    EntriesOk(Blocks);
  }

  /** An entry that takes no arguments lists no argument types, and conversely. */
  lemma ZeroArityListsNoTypes()
    ensures forall f :: f in ShippableBuiltinProcs ==> (f.nargs == 0 <==> f.argtypes == [])
  {
    TableWellFormed();
  }

  /** Entry `j` of block `k` is an entry of the table. */
  lemma RowInTable(k: nat, j: nat)
    requires k < |Blocks| && j < |Blocks[k].rows|
    ensures Blocks[k].rows[j] in ShippableBuiltinProcs
  {
    InEntries(Blocks, Blocks[k].rows[j]);
  }

  /** count(*) is listed as an aggregate without argument types. */
  lemma CountStarPresent()
    ensures ShippableFunction("count", Agg, 0, [], None) in ShippableBuiltinProcs
  {
    RowInTable(0, 0);
  }

  /** now() is listed without argument types. */
  lemma NowPresent()
    ensures ShippableFunction("now", Func, 0, [], None) in ShippableBuiltinProcs
  {
    RowInTable(11, 5);
  }

  /** pi() is listed without argument types. */
  lemma PiPresent()
    ensures ShippableFunction("pi", Func, 0, [], None) in ShippableBuiltinProcs
  {
    RowInTable(14, 9);
  }

  /** random() is listed without argument types. */
  lemma RandomPresent()
    ensures ShippableFunction("random", Func, 0, [], None) in ShippableBuiltinProcs
  {
    RowInTable(15, 0);
  }

  /** The window function rank() is listed without argument types. */
  lemma RankPresent()
    ensures ShippableFunction("rank", Window, 0, [], None) in ShippableBuiltinProcs
  {
    RowInTable(17, 0);
  }

  /** numeric(numeric, int4) carries IsCast. */
  lemma NumericCastPresent()
    ensures ShippableFunction("numeric", Func, 2, ["numeric", "int4"], Some(Cast)) in ShippableBuiltinProcs
  {
    RowInTable(6, 5);
  }

  /** char(text) carries IsCast. */
  lemma CharCastPresent()
    ensures ShippableFunction("char", Func, 1, ["text"], Some(Cast)) in ShippableBuiltinProcs
  {
    RowInTable(8, 3);
  }

  /** bpchar(bpchar, int4, bool) carries IsCast. */
  lemma BpcharCastPresent()
    ensures ShippableFunction("bpchar", Func, 3, ["bpchar", "int4", "bool"], Some(Cast)) in ShippableBuiltinProcs
  {
    RowInTable(8, 4);
  }

  /** to_char(timestamp, text) carries IsConvertibleToChar. */
  lemma ToCharTimestampPresent()
    ensures ShippableFunction("to_char", Func, 2, ["timestamp", "text"], Some(ToChar)) in ShippableBuiltinProcs
  {
    RowInTable(11, 6);
  }

  /** to_char(timestamptz, text) carries IsConvertibleToChar. */
  lemma ToCharTimestamptzPresent()
    ensures ShippableFunction("to_char", Func, 2, ["timestamptz", "text"], Some(ToChar)) in ShippableBuiltinProcs
  {
    RowInTable(11, 7);
  }

  /** concat(any) carries IsConcatShippable. */
  lemma ConcatPresent()
    ensures ShippableFunction("concat", Func, 1, ["any"], Some(Concat)) in ShippableBuiltinProcs
  {
    RowInTable(12, 2);
  }

  /** concat_ws(text, any) carries IsConcatShippable. */
  lemma ConcatWsPresent()
    ensures ShippableFunction("concat_ws", Func, 2, ["text", "any"], Some(Concat)) in ShippableBuiltinProcs
  {
    RowInTable(19, 5);
  }

  /** array_length(anyarray, int4) carries IsArrayLengthShippable. */
  lemma ArrayLengthPresent()
    ensures ShippableFunction("array_length", Func, 2, ["anyarray", "int4"], Some(ArrayLength)) in ShippableBuiltinProcs
  {
    RowInTable(16, 2);
  }

  /** encode(bytea, text) carries IsEncodeShippable. */
  lemma EncodePresent()
    ensures ShippableFunction("encode", Func, 2, ["bytea", "text"], Some(Encode)) in ShippableBuiltinProcs
  {
    RowInTable(21, 2);
  }

  /** decode(text, text) carries IsDecodeShippable. */
  lemma DecodePresent()
    ensures ShippableFunction("decode", Func, 2, ["text", "text"], Some(Decode)) in ShippableBuiltinProcs
  {
    RowInTable(21, 3);
  }

  /** Each entry of ValidatedEntries, validator included, is in the table. */
  lemma ValidatedEntriesInTable()
    ensures forall f :: f in ValidatedEntries ==> f in ShippableBuiltinProcs
  {
    NumericCastPresent();
    CharCastPresent();
    BpcharCastPresent();
    ToCharTimestampPresent();
    ToCharTimestamptzPresent();
    ConcatPresent();
    ConcatWsPresent();
    ArrayLengthPresent();
    EncodePresent();
    DecodePresent();
  }

  /** A table entry carries a validator exactly when it is one of ValidatedEntries. */
  lemma OnlyValidatedEntriesCarryValidators()
    ensures forall f :: f in ShippableBuiltinProcs ==> (f.validator.Some? <==> f in ValidatedEntries)
  {
    TableWellFormed();
    forall f | f in ShippableBuiltinProcs
      ensures f.validator.Some? <==> f in ValidatedEntries
    {
      ValidatedEntriesExactly(f);
    }
  }
  /** The table has an entry with this name, kind and argument-type list. */
  predicate Lists(name: string, kind: Kind, argtypes: seq<string>) {
    exists f :: f in ShippableBuiltinProcs && f.name == name && f.kind == kind && f.argtypes == argtypes
  }

  /** An entry whose name belongs to block `k` is an entry of that block. */
  lemma EntryOfBlock(f: ShippableFunction, k: nat)
    requires f in ShippableBuiltinProcs && k < |Blocks| && f.name in Blocks[k].functions
    ensures f in Blocks[k].rows
  {
    AllBlocksOk();
    EntriesOk(Blocks);
  }

  /** The avg and sum entries take one int2, int4, int8, float4, float8 or numeric argument. */
  lemma AvgSumEntries(f: ShippableFunction)
    requires f in ShippableBuiltinProcs && f.name in {"avg", "sum"}
    ensures f.argtypes in {["int2"], ["int4"], ["int8"], ["float4"], ["float8"], ["numeric"]}
  {
    EntryOfBlock(f, 0);
  }

  /** avg(interval) and sum(interval) are left out: DuckDB does not support them. */
  lemma IntervalAggregatesAbsent()
    ensures !Lists("avg", Agg, ["interval"])
    ensures !Lists("sum", Agg, ["interval"])
  {
    forall f | f in ShippableBuiltinProcs && f.name in {"avg", "sum"}
      ensures f.argtypes != ["interval"]
    {
      AvgSumEntries(f);
    }
  }

  /** The date_trunc entries take (text, interval), (text, timestamp) or (text, timestamptz). */
  lemma DateTruncEntries(f: ShippableFunction)
    requires f in ShippableBuiltinProcs && f.name == "date_trunc"
    ensures f.argtypes in {["text", "interval"], ["text", "timestamp"], ["text", "timestamptz"]}
  {
    assert Blocks[11] == DateTimeFormatting;
    EntryOfBlock(f, 11);
  }

  /** The three-argument date_trunc(text, timestamptz, text) is left out. */
  lemma DateTruncWithZoneAbsent()
    ensures !Lists("date_trunc", Func, ["text", "timestamptz", "text"])
  {
    forall f | f in ShippableBuiltinProcs && f.name == "date_trunc"
      ensures f.argtypes != ["text", "timestamptz", "text"]
    {
      DateTruncEntries(f);
    }
  }

  /** The regexp_replace entries take three or four text arguments. */
  lemma RegexpReplaceEntries(f: ShippableFunction)
    requires f in ShippableBuiltinProcs && f.name == "regexp_replace"
    ensures f.argtypes in {["text", "text", "text"], ["text", "text", "text", "text"]}
  {
    assert Blocks[12] == RegexpConcatBool;
    EntryOfBlock(f, 12);
  }

  /** Every regexp_replace variant with int4 start, occurrence or flags arguments is left out. */
  lemma RegexpReplaceInt4VariantsAbsent()
    ensures !Lists("regexp_replace", Func, ["text", "text", "text", "int4"])
    ensures !Lists("regexp_replace", Func, ["text", "text", "text", "int4", "int4"])
    ensures !Lists("regexp_replace", Func, ["text", "text", "text", "int4", "int4", "text"])
  {
    forall f | f in ShippableBuiltinProcs && f.name == "regexp_replace"
      ensures "int4" !in f.argtypes
    {
      RegexpReplaceEntries(f);
    }
  }
}
