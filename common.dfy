/** Values and string operations shared by the models of the two service modules. */
module Common {

  datatype Option<+T> = None | Some(value: T)

  /** The outcome of an operation that may throw: `Err` carries the thrown error's message. */
  datatype Result<+T> = Ok(value: T) | Err(error: string)

  newtype byte = x: int | 0 <= x < 256

  /** A Node `Buffer`. */
  type Bytes = seq<byte>

  /**
   * The MIME type of Word (OOXML) documents, as its registered parts: the top-level type,
   * the vendor tree and the subtype.
   */
  const ApplicationType := "application/"
  const OpenXmlTree := "vnd.openxmlformats-officedocument."
  const WordprocessingSubtype := "wordprocessingml.document"
  const WordXmlMime := ApplicationType + OpenXmlTree + WordprocessingSubtype

  /** JavaScript's `s.startsWith(p)`. */
  predicate StartsWith(s: string, p: string)
  {
    |p| <= |s| && s[..|p|] == p
  }

  /** JavaScript's `s.split(sep).pop()`: the text after the last `sep`, or all of `s` when it has none. */
  function AfterLast(s: string, sep: char): (r: string)
    ensures sep !in r
    ensures |r| <= |s| && s[|s| - |r|..] == r
  {
    if |s| == 0 then ""
    else if s[|s| - 1] == sep then ""
    else
      var r := AfterLast(s[..|s| - 1], sep);
      SuffixSnoc(s, r);
      r + [s[|s| - 1]]
  }

  /** A suffix of `s` without its last character, followed by that character, is a suffix of `s`. */
  lemma SuffixSnoc(s: string, r: string)
    requires 0 < |s| && |r| < |s| && s[..|s| - 1][|s| - 1 - |r|..] == r
    ensures s[|s| - |r| - 1..] == r + [s[|s| - 1]]
  {
    var t, u := s[|s| - |r| - 1..], r + [s[|s| - 1]];
    assert |t| == |u|;
    forall i | 0 <= i < |t|
      ensures t[i] == u[i]
    {
      if i < |r| {
        assert t[i] == s[..|s| - 1][|s| - 1 - |r| + i];
      }
    }
  }

  /** When `s` holds a `sep`, the segment after the last one starts right after a `sep`. */
  lemma {:induction false} AfterLastFollowsSep(s: string, sep: char)
    ensures |AfterLast(s, sep)| < |s| ==> s[|s| - |AfterLast(s, sep)| - 1] == sep
  {
    if |s| > 0 && s[|s| - 1] != sep {
      var init := s[..|s| - 1];
      AfterLastFollowsSep(init, sep);
      assert AfterLast(s, sep) == AfterLast(init, sep) + [s[|s| - 1]];
      if |AfterLast(s, sep)| < |s| {
        var k := |init| - |AfterLast(init, sep)| - 1;
        assert s[k] == init[k];
      }
    }
  }

  /** The segment after the last `sep` is the `sep`-free suffix that `sep` precedes. */
  lemma AfterLastUnique(s: string, sep: char, suffix: string)
    requires sep !in suffix && |suffix| < |s|
    requires s[|s| - |suffix| - 1] == sep && s[|s| - |suffix|..] == suffix
    ensures AfterLast(s, sep) == suffix
  {
    AfterLastFollowsSep(s, sep);
  }

  lemma ConcatAssoc(a: string, b: string, c: string)
    ensures (a + b) + c == a + (b + c)
  {
  }

  /** Regrouping of a prefix followed by three pieces. */
  lemma ConcatRegroup(a: string, b: string, c: string, d: string)
    ensures ((a + b) + c) + d == a + ((b + c) + d)
    ensures a + ((b + c) + d) == ((a + b) + c) + d
  {
    ConcatAssoc(a, b, c);
    ConcatAssoc(a, b + c, d);
  }

  /** The concatenation of `parts[from..]`, in order. */
  function JoinFrom(parts: seq<string>, from: nat): string
    decreases |parts| - from
  {
    if from >= |parts| then "" else parts[from] + JoinFrom(parts, from + 1)
  }

  /**
   * Joining splits at any point `k`: the parts before `k` may be taken from any list `a`
   * that agrees with `b` on them.
   */
  lemma {:induction false} JoinFromPrefix(a: seq<string>, b: seq<string>, from: nat, k: nat)
    requires from <= k == |a| <= |b|
    requires forall i :: from <= i < k ==> a[i] == b[i]
    ensures JoinFrom(b, from) == JoinFrom(a, from) + JoinFrom(b, k)
    decreases k - from
  {
    if from < k {
      JoinFromPrefix(a, b, from + 1, k);
      ConcatAssoc(a[from], JoinFrom(a, from + 1), JoinFrom(b, k));
    } else {
      assert JoinFrom(a, from) == "";
      assert "" + JoinFrom(b, k) == JoinFrom(b, k);
    }
  }

  /** Joining splits around part `k` of `b`, the parts before it taken from `a`. */
  lemma JoinFromSplit(a: seq<string>, b: seq<string>, from: nat, k: nat)
    requires from <= k == |a| < |b|
    requires forall i :: from <= i < k ==> a[i] == b[i]
    ensures JoinFrom(b, from) == JoinFrom(a, from) + b[k] + JoinFrom(b, k + 1)
  {
    JoinFromPrefix(a, b, from, k);
    assert JoinFrom(b, k) == b[k] + JoinFrom(b, k + 1);
    ConcatAssoc(JoinFrom(a, from), b[k], JoinFrom(b, k + 1));
  }

  lemma JoinFromLast(parts: seq<string>)
    requires |parts| > 0
    ensures JoinFrom(parts, |parts| - 1) == parts[|parts| - 1]
  {
    assert JoinFrom(parts, |parts|) == "";
    assert parts[|parts| - 1] + "" == parts[|parts| - 1];
  }

  predicate IsUpper(c: char)
  {
    'A' <= c <= 'Z'
  }

  function LowerChar(c: char): (r: char)
    ensures !IsUpper(r)
    ensures !IsUpper(c) ==> r == c
  {
    if IsUpper(c) then (c as int + 32) as char else c
  }

  /** `toLowerCase()` restricted to the ASCII letters, which are the only ones the lookup tables use. */
  function Lower(s: string): (r: string)
    ensures |r| == |s|
    ensures forall i :: 0 <= i < |s| ==> r[i] == LowerChar(s[i])
  {
    if s == [] then [] else [LowerChar(s[0])] + Lower(s[1..])
  }

  predicate IsLowerCase(s: string)
  {
    forall i :: 0 <= i < |s| ==> !IsUpper(s[i])
  }

  lemma LowerIsLowerCase(s: string)
    ensures IsLowerCase(Lower(s))
  {
  }

  lemma LowerOfLowerCase(s: string)
    requires IsLowerCase(s)
    ensures Lower(s) == s
  {
  }

  lemma LowerAppend(a: string, b: string)
    ensures Lower(a + b) == Lower(a) + Lower(b)
  {
    var l, r := Lower(a + b), Lower(a) + Lower(b);
    assert |l| == |r|;
    forall i | 0 <= i < |l|
      ensures l[i] == r[i]
    {
      if i < |a| {
        assert (a + b)[i] == a[i];
      } else {
        assert (a + b)[i] == b[i - |a|];
      }
    }
  }

  lemma LowerSnoc(init: string, c: char)
    ensures Lower(init + [c]) == Lower(init) + [LowerChar(c)]
  {
    LowerAppend(init, [c]);
  }

  /** `AfterLast` looks at the last character first. */
  lemma AfterLastSnoc(init: string, c: char, sep: char)
    ensures AfterLast(init + [c], sep) == if c == sep then "" else AfterLast(init, sep) + [c]
  {
    var s := init + [c];
    assert s[..|s| - 1] == init;
  }

  /** Lower-casing does not move a `.` or a `/`, so taking the last segment and lower-casing commute. */
  lemma {:induction false} LowerAfterLast(s: string, sep: char)
    requires !IsUpper(sep) && !('a' <= sep <= 'z')
    ensures Lower(AfterLast(s, sep)) == AfterLast(Lower(s), sep)
  {
    if |s| > 0 {
      var init, c := s[..|s| - 1], s[|s| - 1];
      assert s == init + [c];
      LowerSnoc(init, c);
      AfterLastSnoc(Lower(init), LowerChar(c), sep);
      assert LowerChar(c) == sep <==> c == sep;
      if c != sep {
        LowerAfterLast(init, sep);
        LowerSnoc(AfterLast(init, sep), c);
      }
    }
  }

  function DigitChar(d: nat): (c: char)
    requires d < 10
    ensures '0' <= c <= '9'
  {
    ('0' as int + d) as char
  }

  /** The value of a string of decimal digits. */
  function DecimalValue(s: string): nat
    requires forall i :: 0 <= i < |s| ==> '0' <= s[i] <= '9'
  {
    if s == [] then 0 else 10 * DecimalValue(s[..|s| - 1]) + (s[|s| - 1] as int - '0' as int)
  }

  /** A template literal's rendering of a non-negative integer (`${n}`). */
  function NatToString(n: nat): (r: string)
    ensures |r| >= 1
    ensures forall i :: 0 <= i < |r| ==> '0' <= r[i] <= '9'
    ensures |r| > 1 ==> r[0] != '0'
  {
    if n < 10 then [DigitChar(n)] else NatToString(n / 10) + [DigitChar(n % 10)]
  }

  lemma {:induction false} NatToStringValue(n: nat)
    ensures DecimalValue(NatToString(n)) == n
  {
    if n >= 10 {
      NatToStringValue(n / 10);
      var r := NatToString(n);
      assert r[..|r| - 1] == NatToString(n / 10);
    }
  }
}
