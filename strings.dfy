/** String helpers with Python's meaning: `endswith`, `find`, `rfind` and `split`. */
module Strings {

  predicate EndsWith(s: string, suffix: string)
  {
    |suffix| <= |s| && s[|s| - |suffix|..] == suffix
  }

  lemma {:induction false} TakeDrop<T>(s: seq<T>, n: nat)
    requires n <= |s|
    ensures s == s[..n] + s[n..]
  {
  }

  /** A prefix of a prefix is a prefix. */
  lemma {:induction false} PrefixTrans<T>(a: seq<T>, b: seq<T>, c: seq<T>)
    requires |a| <= |b| <= |c| && c[..|b|] == b && b[..|a|] == a
    ensures c[..|a|] == a
  {
    assert c[..|a|] == c[..|b|][..|a|];
  }

  lemma {:induction false} DropDrop<T>(s: seq<T>, m: nat, n: nat)
    requires m + n <= |s|
    ensures s[m..][n..] == s[m + n..]
  {
  }

  lemma {:induction false} SliceOfConcat<T>(p: seq<T>, b: seq<T>, k: nat)
    requires k <= |b|
    ensures (p + b)[..|p| + k] == p + b[..k] && (p + b)[|p| + k..] == b[k..]
  {
    assert (p + b)[|p|..] == b;
    DropDrop(p + b, |p|, k);
  }

  lemma {:induction false} ConcatAssoc<T>(a: seq<T>, b: seq<T>, c: seq<T>)
    ensures a + b + c == a + (b + c)
  {
  }

  /** Index of the first `c` in `s` (`s.find(c)` when it is found). */
  function FirstIndex(s: string, c: char): (i: nat)
    requires c in s
    ensures i < |s| && s[i] == c && c !in s[..i]
  {
    if s[0] == c then 0
    else
      var i := 1 + FirstIndex(s[1..], c);
      assert s[..i] == [s[0]] + s[1..][..i - 1];
      i
  }

  /** Index of the last `c` in `s` (`s.rfind(c)` when it is found). */
  function LastIndex(s: string, c: char): (i: nat)
    requires c in s
    ensures i < |s| && s[i] == c && c !in s[i + 1..]
  {
    if s[|s| - 1] == c then |s| - 1
    else
      var init := s[..|s| - 1];
      assert c in init by {
        var k :| 0 <= k < |s| && s[k] == c;
        assert init[k] == c;
      }
      var i := LastIndex(init, c);
      assert s[i + 1..] == init[i + 1..] + [s[|s| - 1]];
      i
  }

  /** The only position holding `c` with no `c` after it is the last index of `c`. */
  lemma {:induction false} LastIndexUnique(s: string, c: char, i: nat)
    requires i < |s| && s[i] == c && c !in s[i + 1..]
    ensures LastIndex(s, c) == i
  {
  }

  /** The fields joined with `sep` between neighbours: the inverse of Split. */
  function Intercalate(fields: seq<string>, sep: char): string
  {
    if |fields| == 0 then []
    else if |fields| == 1 then fields[0]
    else fields[0] + [sep] + Intercalate(fields[1..], sep)
  }

  /** Python's `s.split(sep)` for a one-character separator: at least one field, none
      containing `sep`, and joining them again gives back `s`. */
  function Split(s: string, sep: char): (fields: seq<string>)
    ensures |fields| >= 1
    ensures forall i :: 0 <= i < |fields| ==> sep !in fields[i]
    ensures Intercalate(fields, sep) == s
    ensures |fields| >= 2 <==> sep in s
    decreases |s|
  {
    if sep !in s then [s]
    else
      var i := FirstIndex(s, sep);
      var rest := Split(s[i + 1..], sep);
      assert ([s[..i]] + rest)[1..] == rest;
      assert s == s[..i] + [sep] + s[i + 1..];
      [s[..i]] + rest
  }

  /** `first` is the text of `s` before its first `sep`, and `second` the text between
      that `sep` and the next one (or the end). */
  ghost predicate LeadingFields(s: string, sep: char, first: string, second: string)
  {
    var n := |first|;
    var m := n + 1 + |second|;
    && sep !in first && sep !in second
    && m <= |s| && s[..n] == first && s[n] == sep
    && s[n + 1..m] == second && (m == |s| || s[m] == sep)
  }

  /** The leading two fields of a string are determined by it. */
  lemma {:induction false} LeadingFieldsUnique(s: string, sep: char, a: string, b: string, a': string, b': string)
    requires LeadingFields(s, sep, a, b) && LeadingFields(s, sep, a', b')
    ensures a == a' && b == b'
  {
  }

  /** The first two fields of a split are the leading fields of the string. */
  lemma {:induction false} SplitFirstTwo(s: string, sep: char)
    requires sep in s
    ensures var f := Split(s, sep);
            LeadingFields(s, sep, f[0], f[1])
  {
    var f := Split(s, sep);
    assert Intercalate(f, sep) == f[0] + [sep] + Intercalate(f[1..], sep);
    var tail := f[1..];
    if |tail| == 1 {
      assert Intercalate(tail, sep) == f[1];
    } else {
      assert Intercalate(tail, sep) == f[1] + [sep] + Intercalate(tail[1..], sep);
    }
  }

  /** Splitting `first + sep + second + rest`, where `rest` is empty or starts a new
      field, gives `first` and `second` as the first two fields. */
  lemma {:induction false} SplitOfLeading(first: string, sep: char, second: string, rest: string)
    requires sep !in first && sep !in second && (rest == [] || rest[0] == sep)
    ensures var f := Split(first + [sep] + second + rest, sep);
            |f| >= 2 && f[0] == first && f[1] == second
  {
    var s := first + [sep] + second + rest;
    var n, m := |first|, |first| + 1 + |second|;
    assert s[..n] == first && s[n] == sep && s[n + 1..m] == second;
    assert m == |s| || s[m] == rest[0];
    assert LeadingFields(s, sep, first, second);
    SplitFirstTwo(s, sep);
    var f := Split(s, sep);
    LeadingFieldsUnique(s, sep, first, second, f[0], f[1]);
  }
}
