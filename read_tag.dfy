/** `re.sub` with the pattern `(.+)\.R[12](\..+)`, which the handler uses to take the
    read number (and, for sample names, the extension) out of a FASTQ file name.

    In that pattern '.' matches any character except a newline, so a match never spans
    a newline and `re.sub` rewrites each line on its own. Within one line, a match can
    only start at the line's first character and, as the second group takes the rest of
    the line, ends at the line's end; the greedy first group ends at the LAST place in the
    line where `.R1.` or `.R2.` is followed by at least one more character. */
module ReadTag {
  import opened Results
  import opened Strings

  /** `.R1.` or `.R2.` starts at `i` and at least one character follows it. */
  predicate TagShapeAt(s: string, i: nat)
  {
    i + 5 <= |s| && s[i] == '.' && s[i + 1] == 'R' && (s[i + 2] == '1' || s[i + 2] == '2') && s[i + 3] == '.'
  }

  /** ... and at least one character precedes it, for the first group `(.+)`. */
  predicate TagAt(s: string, i: nat)
  {
    1 <= i && TagShapeAt(s, i)
  }

  /** The greatest tag position below `k`. */
  function LastTagBelow(s: string, k: nat): (r: Option<nat>)
    requires k <= |s|
    ensures r.Some? ==> r.value < k && TagAt(s, r.value)
    ensures r.Some? ==> forall j :: r.value < j < k ==> !TagAt(s, j)
    ensures r.None? ==> forall j: nat :: j < k ==> !TagAt(s, j)
  {
    if k == 0 then None
    else if TagAt(s, k - 1) then Some(k - 1)
    else LastTagBelow(s, k - 1)
  }

  /** Where the greedy first group ends in a line: the last tag position, if any. */
  function LastTag(s: string): (r: Option<nat>)
    ensures r.Some? ==> TagAt(s, r.value) && forall j :: r.value < j ==> !TagAt(s, j)
    ensures r.None? ==> forall j: nat :: !TagAt(s, j)
  {
    LastTagBelow(s, |s|)
  }

  /** The two replacement templates the handler uses: `\1\2` keeps the extension,
      `\1` drops it. */
  datatype Template = KeepExtension | DropExtension

  /** `re.sub` on one line: the text before the last tag, followed by the extension when
      the template keeps it; a line without a tag is left as it is. */
  function RewriteLine(line: string, template: Template): string
  {
    match LastTag(line)
    case None => line
    case Some(i) => line[..i] + (if template == KeepExtension then line[i + 3..] else [])
  }

  /** `re.sub(FASTQ_FILE_PATTERN, template, s)`: every line rewritten on its own. */
  function Substitute(s: string, template: Template): (r: string)
    ensures |r| <= |s|
    decreases |s|
  {
    if '\n' !in s then RewriteLine(s, template)
    else
      var j := LastIndex(s, '\n');
      Substitute(s[..j], template) + "\n" + RewriteLine(s[j + 1..], template)
  }

  /** The last newline of `a + "\n" + b` is the one between them when `b` has none, and
      otherwise the last newline of `b`. */
  lemma {:induction false} LastNewlineOfJoin(a: string, b: string)
    ensures '\n' !in b ==> LastIndex(a + "\n" + b, '\n') == |a|
    ensures '\n' in b ==> LastIndex(a + "\n" + b, '\n') == |a| + 1 + LastIndex(b, '\n')
  {
    var s := a + "\n" + b;
    assert s[|a| + 1..] == b;
    if '\n' !in b {
      LastIndexUnique(s, '\n', |a|);
    } else {
      var k := LastIndex(b, '\n');
      DropDrop(s, |a| + 1, k + 1);
      LastIndexUnique(s, '\n', |a| + 1 + k);
    }
  }

  /** Substitute splits its input at the last newline: `front` is the text before it and
      `back` the line after it. */
  lemma {:induction false} SubstituteAtLastNewline(s: string, template: Template, front: string, back: string)
    requires '\n' in s
    requires front == s[..LastIndex(s, '\n')] && back == s[LastIndex(s, '\n') + 1..]
    ensures Substitute(s, template) == Substitute(front, template) + "\n" + RewriteLine(back, template)
  {
  }

  lemma {:induction false} NewlineJoinAssoc(x: string, y: string, z: string)
    ensures x + "\n" + y + "\n" + z == x + "\n" + (y + "\n" + z)
  {
  }

  /** Joining a last line on: the new line is rewritten on its own. */
  lemma {:induction false} SubstituteJoinLine(a: string, b: string, template: Template)
    requires '\n' !in b
    ensures Substitute(a + "\n" + b, template) == Substitute(a, template) + "\n" + RewriteLine(b, template)
  {
    var s := a + "\n" + b;
    LastNewlineOfJoin(a, b);
    assert s[..|a|] == a && s[|a| + 1..] == b;
    SubstituteAtLastNewline(s, template, a, b);
  }

  /** Joining text that holds a newline: its last line is split off as in `b` alone. */
  lemma {:induction false} SubstituteJoinLines(a: string, b: string, template: Template)
    requires '\n' in b
    ensures var k := LastIndex(b, '\n');
            Substitute(a + "\n" + b, template) == Substitute(a + "\n" + b[..k], template) + "\n" + RewriteLine(b[k + 1..], template)
  {
    var p := a + "\n";
    LastNewlineOfJoin(a, b);
    var k := LastIndex(b, '\n');
    SliceOfConcat(p, b, k);
    SliceOfConcat(p, b, k + 1);
    SubstituteAtLastNewline(p + b, template, p + b[..k], b[k + 1..]);
  }

  /** The inductive step of SubstituteLines: if the lines of `a` and of `b` up to its last
      newline are substituted independently, so are those of `a` and all of `b`. */
  lemma {:induction false} SubstituteLinesStep(a: string, b: string, template: Template)
    requires '\n' in b
    requires var k := LastIndex(b, '\n');
             Substitute(a + "\n" + b[..k], template) == Substitute(a, template) + "\n" + Substitute(b[..k], template)
    ensures Substitute(a + "\n" + b, template) == Substitute(a, template) + "\n" + Substitute(b, template)
  {
    var k := LastIndex(b, '\n');
    SubstituteJoinLines(a, b, template);
    SubstituteAtLastNewline(b, template, b[..k], b[k + 1..]);
    NewlineJoinAssoc(Substitute(a, template), Substitute(b[..k], template), RewriteLine(b[k + 1..], template));
  }

  /** `re.sub` rewrites the lines on either side of a newline independently: the text
      before it and the text after it are substituted on their own. */
  lemma {:induction false} SubstituteLines(a: string, b: string, template: Template)
    ensures Substitute(a + "\n" + b, template) == Substitute(a, template) + "\n" + Substitute(b, template)
    decreases |b|
  {
    if '\n' !in b {
      SubstituteJoinLine(a, b, template);
    } else {
      SubstituteLines(a, b[..LastIndex(b, '\n')], template);
      SubstituteLinesStep(a, b, template);
    }
  }

  /** `re.sub(FASTQ_FILE_PATTERN, '\\1\\2', s)`. */
  function StripReadTag(s: string): string
  {
    Substitute(s, KeepExtension)
  }

  /** `re.sub(FASTQ_FILE_PATTERN, '\\1', s)`. */
  function StripReadTagAndExtension(s: string): string
  {
    Substitute(s, DropExtension)
  }

  /** No `.R1.` or `.R2.` occurs in `s` with a character after it. */
  ghost predicate NoTagShape(s: string)
  {
    forall j: nat :: !TagShapeAt(s, j)
  }

  /** A one-line name `q` + `.R1.`/`.R2.` + `ext`, where nothing in `.ext` looks like a
      tag: the read number is what gets removed, and the result is `q.ext`, or `q` alone
      when the extension is dropped too. */
  lemma {:induction false} StripTagOfReadName(q: string, mark: string, ext: string)
    requires q != [] && '\n' !in q
    requires mark == ".R1." || mark == ".R2."
    requires ext != [] && '\n' !in ext
    requires NoTagShape("." + ext)
    ensures StripReadTag(q + mark + ext) == q + "." + ext
    ensures StripReadTagAndExtension(q + mark + ext) == q
  {
    var s := q + mark + ext;
    var dotExt := "." + ext;
    assert s[|q| + 3..] == dotExt;
    assert '\n' !in s;
    assert TagAt(s, |q|);
    forall j | |q| < j
      ensures !TagAt(s, j)
    {
      if j >= |q| + 3 && TagShapeAt(s, j) {
        assert s[j..] == dotExt[j - |q| - 3..];
        assert TagShapeAt(dotExt, j - |q| - 3);
      }
    }
    assert LastTag(s) == Some(|q|);
    assert s[..|q|] == q;
  }

  /** A line without a tag comes through unchanged. */
  lemma {:induction false} NoTagUnchanged(s: string, template: Template)
    requires '\n' !in s
    requires forall j: nat :: !TagAt(s, j)
    ensures Substitute(s, template) == s
  {
  }

  /** Removing text never adds a '/': what comes out of a name without '/' has none. */
  lemma {:induction false} SubstituteKeepsNoSlash(s: string, template: Template)
    requires '/' !in s
    ensures '/' !in Substitute(s, template)
    decreases |s|
  {
    if '\n' in s {
      var j := LastIndex(s, '\n');
      assert '/' !in s[..j] && '/' !in s[j + 1..];
      SubstituteKeepsNoSlash(s[..j], template);
      RewriteLineKeepsNoSlash(s[j + 1..], template);
    } else {
      RewriteLineKeepsNoSlash(s, template);
    }
  }

  lemma {:induction false} RewriteLineKeepsNoSlash(line: string, template: Template)
    requires '/' !in line
    ensures '/' !in RewriteLine(line, template)
  {
    match LastTag(line)
    case None =>
    case Some(i) =>
      assert '/' !in line[..i] && '/' !in line[i + 3..];
  }
}
