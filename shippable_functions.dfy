/**
 * Entries of the table of built-in functions that may be pushed down to
 * DuckDB: the entry record, the validator tags, the reference predicates
 * that say which entries carry which validator, and the generic facts about
 * a table written as consecutive blocks of entries.
 */
module ShippableFunctions {
  import opened Wrappers

  /** The `prokind` of pg_proc that an entry matches. */
  datatype Kind = Agg | Func | Window {
    /** The character stored in the table: 'a', 'f' or 'w'. */
    function Code(): char {
      match this
      case Agg => 'a'
      case Func => 'f'
      case Window => 'w'
    }
  }

  /** Reads a table kind character back; any other character is no kind. */
  function KindOfCode(c: char): (k: Option<Kind>)
    ensures k.Some? <==> c in {'a', 'f', 'w'}
  {
    if c == 'a' then Some(Agg)
    else if c == 'f' then Some(Func)
    else if c == 'w' then Some(Window)
    else None
  }

  /** Every kind has one of the three codes and reads back as itself. */
  lemma KindCodeRoundTrip(k: Kind)
    ensures k.Code() in {'a', 'f', 'w'}
    ensures KindOfCode(k.Code()) == Some(k)
  {
  }

  /** Two kinds with the same code are the same kind. */
  lemma KindCodeInjective(k1: Kind, k2: Kind)
    ensures k1.Code() == k2.Code() ==> k1 == k2
  {
  }

  /**
   * The call-site validators an entry may name; Validators.RunValidator
   * maps each tag to its check.
   */
  datatype Validator = Concat | Encode | Decode | ArrayLength | Cast | ToChar

  /**
   * One table entry: function name, kind, number of arguments, argument type
   * names and the validator to run on a matching call (None for NULL).
   */
  datatype ShippableFunction = ShippableFunction(
    name: string,
    kind: Kind,
    nargs: nat,
    argtypes: seq<string>,
    validator: Option<Validator>)

  /** Two entries match the same calls: same name, kind and argument types. */
  predicate SameSignature(f: ShippableFunction, g: ShippableFunction) {
    f.name == g.name && f.kind == g.kind && f.argtypes == g.argtypes
  }

  /** No two entries of `s` share name, kind and argument-type list. */
  predicate NoDuplicateSignatures(s: seq<ShippableFunction>) {
    forall i, j :: 0 <= i < j < |s| ==> !SameSignature(s[i], s[j])
  }

  /**
   * The reference assignment of validators: the ten signatures below carry
   * the validator named here and every other signature carries none.
   */
  function ExpectedValidator(f: ShippableFunction): Option<Validator> {
    if f.name == "numeric" then
      if f.kind == Func && f.argtypes == ["numeric", "int4"] then Some(Cast) else None
    else if f.name == "char" then
      if f.kind == Func && f.argtypes == ["text"] then Some(Cast) else None
    else if f.name == "bpchar" then
      if f.kind == Func && f.argtypes == ["bpchar", "int4", "bool"] then Some(Cast) else None
    else if f.name == "to_char" then
      if f.kind == Func && (f.argtypes == ["timestamp", "text"] || f.argtypes == ["timestamptz", "text"])
      then Some(ToChar) else None
    else if f.name == "concat" then
      if f.kind == Func && f.argtypes == ["any"] then Some(Concat) else None
    else if f.name == "concat_ws" then
      if f.kind == Func && f.argtypes == ["text", "any"] then Some(Concat) else None
    else if f.name == "encode" then
      if f.kind == Func && f.argtypes == ["bytea", "text"] then Some(Encode) else None
    else if f.name == "decode" then
      if f.kind == Func && f.argtypes == ["text", "text"] then Some(Decode) else None
    else if f.name == "array_length" then
      if f.kind == Func && f.argtypes == ["anyarray", "int4"] then Some(ArrayLength) else None
    else None
  }

  /** The entries that carry a validator, with the validator each carries. */
  const ValidatedEntries: seq<ShippableFunction> := [
    ShippableFunction("numeric", Func, 2, ["numeric", "int4"], Some(Cast)),
    ShippableFunction("char", Func, 1, ["text"], Some(Cast)),
    ShippableFunction("bpchar", Func, 3, ["bpchar", "int4", "bool"], Some(Cast)),
    ShippableFunction("to_char", Func, 2, ["timestamp", "text"], Some(ToChar)),
    ShippableFunction("to_char", Func, 2, ["timestamptz", "text"], Some(ToChar)),
    ShippableFunction("concat", Func, 1, ["any"], Some(Concat)),
    ShippableFunction("concat_ws", Func, 2, ["text", "any"], Some(Concat)),
    ShippableFunction("array_length", Func, 2, ["anyarray", "int4"], Some(ArrayLength)),
    ShippableFunction("encode", Func, 2, ["bytea", "text"], Some(Encode)),
    ShippableFunction("decode", Func, 2, ["text", "text"], Some(Decode))
  ]

  /**
   * A well-formed entry carries a validator exactly when it is one of
   * ValidatedEntries.
   */
  lemma ValidatedEntriesExactly(f: ShippableFunction)
    requires WellFormed(f)
    ensures f.validator.Some? <==> f in ValidatedEntries
  {
  }

  /** The argument count agrees with the type list and the validator is the expected one. */
  predicate WellFormed(f: ShippableFunction) {
    f.nargs == |f.argtypes| && f.validator == ExpectedValidator(f)
  }

  /**
   * A run of consecutive table lines together with the set of function
   * names they define; the set lets distinctness across runs be argued one
   * pair of runs at a time.
   */
  datatype Block = Block(functions: set<string>, rows: seq<ShippableFunction>)

  /** Every entry of the block is well formed, named in the block's set and unique in it. */
  predicate BlockOk(b: Block) {
    (forall i :: 0 <= i < |b.rows| ==> b.rows[i].name in b.functions && WellFormed(b.rows[i]))
    && NoDuplicateSignatures(b.rows)
  }

  /** Block `k` shares no function name with any later block. */
  predicate DisjointFromLater(bs: seq<Block>, k: nat)
    requires k < |bs|
  {
    forall l :: k < l < |bs| ==> bs[k].functions !! bs[l].functions
  }

  predicate BlocksOk(bs: seq<Block>) {
    forall k :: 0 <= k < |bs| ==> BlockOk(bs[k]) && DisjointFromLater(bs, k)
  }

  /** The entries of the blocks, in order. */
  function Entries(bs: seq<Block>): seq<ShippableFunction> {
    if |bs| == 0 then [] else bs[0].rows + Entries(bs[1..])
  }

  /** An entry of the block list comes from one of the blocks, and every block entry is in it. */
  lemma {:induction false} InEntries(bs: seq<Block>, f: ShippableFunction)
    ensures f in Entries(bs) <==> exists k :: 0 <= k < |bs| && f in bs[k].rows
  {
    if |bs| > 0 {
      InEntries(bs[1..], f);
      if f in Entries(bs[1..]) {
        var k :| 0 <= k < |bs[1..]| && f in bs[1..][k].rows;
        assert f in bs[k + 1].rows;
      }
      if exists k :: 0 <= k < |bs| && f in bs[k].rows {
        var k :| 0 <= k < |bs| && f in bs[k].rows;
        if k > 0 {
          assert f in bs[1..][k - 1].rows;
        }
      }
    }
  }

  /** Concatenating two duplicate-free lists whose names are apart keeps them duplicate-free. */
  lemma NoDuplicatesAppend(a: seq<ShippableFunction>, b: seq<ShippableFunction>)
    requires NoDuplicateSignatures(a) && NoDuplicateSignatures(b)
    requires forall x, y :: x in a && y in b ==> x.name != y.name
    ensures NoDuplicateSignatures(a + b)
  {
    var s := a + b;
    forall i, j | 0 <= i < j < |s|
      ensures !SameSignature(s[i], s[j])
    {
      if j < |a| {
        assert s[i] == a[i] && s[j] == a[j];
      } else if i >= |a| {
        assert s[i] == b[i - |a|] && s[j] == b[j - |a|];
      } else {
        assert s[i] in a && s[j] in b;
      }
    }
  }

  /** The block facts hold for every suffix of a well-checked block list. */
  lemma BlocksOkTail(bs: seq<Block>)
    requires |bs| > 0 && BlocksOk(bs)
    ensures BlocksOk(bs[1..])
  {
    forall k | 0 <= k < |bs[1..]|
      ensures BlockOk(bs[1..][k]) && DisjointFromLater(bs[1..], k)
    {
      assert bs[1..][k] == bs[k + 1];
      assert DisjointFromLater(bs, k + 1);
    }
  }

  /**
   * From the per-block facts: every entry of the block list is well
   * formed, its name is in the set of the block it came from, and no two
   * entries share a signature.
   */
  lemma {:induction false} EntriesOk(bs: seq<Block>)
    requires BlocksOk(bs)
    ensures forall f :: f in Entries(bs) ==> WellFormed(f)
    ensures forall f, k :: f in Entries(bs) && 0 <= k < |bs| && f.name in bs[k].functions ==> f in bs[k].rows
    ensures NoDuplicateSignatures(Entries(bs))
  {
    if |bs| > 0 {
      var head, tail := bs[0], bs[1..];
      BlocksOkTail(bs);
      EntriesOk(tail);
      assert BlockOk(head) && DisjointFromLater(bs, 0);
      assert Entries(bs) == head.rows + Entries(tail);
      forall y | y in Entries(tail)
        ensures y.name !in head.functions
      {
        InEntries(tail, y);
        var l :| 0 <= l < |tail| && y in tail[l].rows;
        var j :| 0 <= j < |tail[l].rows| && tail[l].rows[j] == y;
        assert tail[l] == bs[l + 1];
        assert BlockOk(bs[l + 1]);
        assert y.name in bs[l + 1].functions;
      }
      forall x | x in head.rows
        ensures x.name in head.functions && WellFormed(x)
      {
        var i :| 0 <= i < |head.rows| && head.rows[i] == x;
      }
      NoDuplicatesAppend(head.rows, Entries(tail));
      forall f, k | f in Entries(bs) && 0 <= k < |bs| && f.name in bs[k].functions
        ensures f in bs[k].rows
      {
        if k == 0 {
          assert f !in Entries(tail);
        } else {
          assert bs[k] == tail[k - 1];
          assert f !in head.rows by {
            assert bs[0].functions !! bs[k].functions;
          }
        }
      }
    }
  }
}
