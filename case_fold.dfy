/**
 * pg_strcasecmp, PostgreSQL's case-insensitive comparison of NUL-terminated
 * strings, with ASCII letters folded to lower case.
 */
module CaseFold {
  /** Folds an upper-case ASCII letter to lower case; every other character is kept. */
  function FoldAscii(c: char): (r: char)
    ensures r == '\0' <==> c == '\0'
    ensures 'A' <= c <= 'Z' ==> 'a' <= r <= 'z' && r as int == c as int + 32
    ensures !('A' <= c <= 'Z') ==> r == c
  {
    if 'A' <= c <= 'Z' then (c as int + 32) as char else c
  }

  /** The string with every ASCII letter in lower case. */
  function AsciiLower(s: string): (r: string)
    ensures |r| == |s|
  {
    if |s| == 0 then [] else [FoldAscii(s[0])] + AsciiLower(s[1..])
  }

  /** Reading past the end of a C string yields its terminating NUL. */
  function CharAt(s: string, i: nat): char {
    if i < |s| then s[i] else '\0'
  }

  function Rest(s: string): string {
    if |s| == 0 then s else s[1..]
  }

  /**
   * pg_strcasecmp: walks both strings while the characters agree after
   * folding, returns the difference of the first folded pair that differs,
   * and returns 0 once both strings end together.
   */
  function PgStrCaseCmp(s1: string, s2: string): (r: int)
    ensures s1 == s2 ==> r == 0
    decreases |s1| + |s2|
  {
    var ch1 := CharAt(s1, 0);
    var ch2 := CharAt(s2, 0);
    var f1 := if ch1 != ch2 then FoldAscii(ch1) else ch1;
    var f2 := if ch1 != ch2 then FoldAscii(ch2) else ch2;
    if f1 != f2 then f1 as int - f2 as int
    else if f1 == '\0' then 0
    else PgStrCaseCmp(Rest(s1), Rest(s2))
  }

  /**
   * On strings without NUL characters, pg_strcasecmp reports equality
   * exactly when the two strings agree once ASCII letters are lower-cased.
   */
  lemma {:induction false} PgStrCaseCmpZeroIff(s1: string, s2: string)
    requires '\0' !in s1 && '\0' !in s2
    ensures PgStrCaseCmp(s1, s2) == 0 <==> AsciiLower(s1) == AsciiLower(s2)
    decreases |s1| + |s2|
  {
    if |s1| > 0 && |s2| > 0 {
      assert s1[0] in s1 && s2[0] in s2;
      assert '\0' !in s1[1..] && '\0' !in s2[1..] by {
        assert forall c :: c in s1[1..] ==> c in s1;
        assert forall c :: c in s2[1..] ==> c in s2;
      }
      PgStrCaseCmpZeroIff(s1[1..], s2[1..]);
      assert AsciiLower(s1) == [FoldAscii(s1[0])] + AsciiLower(s1[1..]);
      assert AsciiLower(s2) == [FoldAscii(s2[0])] + AsciiLower(s2[1..]);
      if AsciiLower(s1) == AsciiLower(s2) {
        assert AsciiLower(s1)[0] == AsciiLower(s2)[0];
        assert AsciiLower(s1)[1..] == AsciiLower(s1[1..]);
        assert AsciiLower(s2)[1..] == AsciiLower(s2[1..]);
      }
    } else if |s1| > 0 {
      assert s1[0] in s1;
    } else if |s2| > 0 {
      assert s2[0] in s2;
    }
  }
}
