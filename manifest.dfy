/** `FASTQManifest` and `get_subject_sample_ids`: the table of read-set sources that one
    import is built from, keyed by the "pair key" of a file so that the two files of a
    paired-end read share one entry. */
module Manifest {
  import opened Results
  import opened Strings
  import opened PosixPath
  import opened ReadTag

  const FastqFileType := "FASTQ"

  /** The `sourceFiles` dictionary: `source1` is always there, `source2` once a second
      file with the same pair key has been added. */
  datatype SourceFiles = SourceFiles(source1: string, source2: Option<string>)

  /** One manifest entry, as passed to the start-import-job call. */
  datatype Entry = Entry(
    sourceFiles: SourceFiles,
    sourceFileType: string,
    subjectId: string,
    sampleId: string,
    name: string)

  /** The key `add_source` files an entry under: the path rejoined from its directory and
      base name, then `.R1`/`.R2` taken out of each line. */
  function PairKey(file: string): string
  {
    StripReadTag(Rejoin(file))
  }

  /** The pair key of a read file `p.R1.ext` or `p.R2.ext`, where nothing in `.ext` looks
      like a read number: the path without the read number. */
  lemma {:induction false} PairKeyOfRead(p: string, mark: string, ext: string)
    requires p != [] && '\n' !in p
    requires mark == ".R1." || mark == ".R2."
    requires ext != [] && '\n' !in ext && '/' !in ext
    requires NoTagShape("." + ext)
    ensures PairKey(p + mark + ext) == Rejoin(p) + "." + ext
  {
    RejoinNoNewline(p);
    var q := Rejoin(p);
    assert '/' !in mark + ext;
    RejoinAppend(p, mark + ext);
    ConcatAssoc(p, mark, ext);
    ConcatAssoc(q, mark, ext);
    StripTagOfReadName(q, mark, ext);
  }

  /** Two files whose names differ only in `.R1` versus `.R2` just before the extension
      share a pair key, and that key is the path without the read number. */
  lemma {:induction false} PairKeyOfMates(p: string, ext: string)
    requires p != [] && '\n' !in p
    requires ext != [] && '\n' !in ext && '/' !in ext
    requires NoTagShape("." + ext)
    ensures PairKey(p + ".R1." + ext) == PairKey(p + ".R2." + ext) == Rejoin(p) + "." + ext
  {
    PairKeyOfRead(p, ".R1.", ext);
    PairKeyOfRead(p, ".R2.", ext);
  }

  /** The name `get_subject_sample_ids` splits on '_': the base name with its read number
      and extension removed (the code takes the base name a second time, which changes
      nothing; see ReadNameOfBasename). */
  function ReadName(file: string): string
  {
    Basename(StripReadTagAndExtension(Basename(file)))
  }

  lemma {:induction false} ReadNameOfBasename(file: string)
    ensures ReadName(file) == StripReadTagAndExtension(Basename(file))
  {
    SubstituteKeepsNoSlash(Basename(file), DropExtension);
    BasenameOfName(StripReadTagAndExtension(Basename(file)));
  }

  datatype SampleIds = SampleIds(subjectId: string, sampleId: string)

  /** The unpacking `subject_id, sample_id, *_ = name.split('_')`. */
  function UnpackIds(name: string): (r: Result<SampleIds, Error>)
    ensures r.Ok? <==> '_' in name
    ensures r.Err? ==> r.error == NotEnoughFields(name)
    ensures r.Ok? ==> LeadingFields(name, '_', r.value.subjectId, r.value.sampleId)
  {
    var fields := Split(name, '_');
    if |fields| < 2 then Err(NotEnoughFields(name))
    else
      SplitFirstTwo(name, '_');
      Ok(SampleIds(fields[0], fields[1]))
  }

  /** `get_subject_sample_ids`: the subject is the text of the read name before its first
      '_', the sample the text between its first and second '_' (or the end). A read name
      without '_' cannot be unpacked into two values and raises. */
  function SubjectSampleIds(file: string): (r: Result<SampleIds, Error>)
    ensures r.Ok? <==> '_' in ReadName(file)
    ensures r.Err? ==> r.error == NotEnoughFields(ReadName(file))
    ensures r.Ok? ==> LeadingFields(ReadName(file), '_', r.value.subjectId, r.value.sampleId)
  {
    UnpackIds(ReadName(file))
  }

  /** The read name of `<dir>/<q>.R1.<ext>` is `q`. */
  lemma {:induction false} ReadNameOfReadFile(dir: string, q: string, mark: string, ext: string)
    requires q != [] && '\n' !in q && '/' !in q
    requires mark == ".R1." || mark == ".R2."
    requires ext != [] && '\n' !in ext && '/' !in ext
    requires NoTagShape("." + ext)
    ensures ReadName(dir + "/" + (q + mark + ext)) == q
  {
    var name := q + mark + ext;
    assert '/' !in name;
    BasenameUnder(dir, name);
    StripTagOfReadName(q, mark, ext);
    ReadNameOfBasename(dir + "/" + name);
  }

  /** Unpacking `<subject>_<sample>[_...]` gives that subject and sample. */
  lemma {:induction false} UnpackConventional(subject: string, sample: string, rest: string)
    requires '_' !in subject && '_' !in sample && (rest == [] || rest[0] == '_')
    ensures UnpackIds(subject + "_" + sample + rest) == Ok(SampleIds(subject, sample))
  {
    SplitOfLeading(subject, '_', sample, rest);
  }

  /** A file named by the convention `<dir>/<flowcell>_<sample>[_...].R1.<ext>`: the
      flow cell becomes the subject and the sample the sample. */
  lemma {:induction false} SampleIdsOfConventionalName(dir: string, subject: string, sample: string, rest: string, mark: string, ext: string)
    requires '_' !in subject && '_' !in sample && (rest == [] || rest[0] == '_')
    requires '/' !in subject && '/' !in sample && '/' !in rest && '/' !in ext
    requires '\n' !in subject && '\n' !in sample && '\n' !in rest && '\n' !in ext
    requires mark == ".R1." || mark == ".R2."
    requires ext != [] && NoTagShape("." + ext)
    ensures SubjectSampleIds(dir + "/" + (subject + "_" + sample + rest + mark + ext))
            == Ok(SampleIds(subject, sample))
  {
    var q := subject + "_" + sample + rest;
    assert '/' !in q && '\n' !in q;
    ReadNameOfReadFile(dir, q, mark, ext);
    UnpackConventional(subject, sample, rest);
  }

  /** The `_manifest` dictionary as a value: its keys in insertion order and the entry for
      each key. */
  datatype Table = Table(order: seq<string>, entries: map<string, Entry>)

  const EmptyTable := Table([], map[])

  ghost predicate Distinct(s: seq<string>)
  {
    forall i, j :: 0 <= i < j < |s| ==> s[i] != s[j]
  }

  /** What every manifest satisfies: each key listed once in insertion order, and each
      entry is a FASTQ entry named after its own key. */
  ghost predicate WellFormed(t: Table)
  {
    && Distinct(t.order)
    && (forall k :: k in t.entries <==> k in t.order)
    && (forall k :: k in t.entries ==> t.entries[k].name == k && t.entries[k].sourceFileType == FastqFileType)
  }

  /** A well-formed table has as many entries as keys in its order. */
  lemma {:induction false} EntryCount(t: Table)
    requires WellFormed(t)
    ensures |t.entries| == |t.order|
    decreases |t.order|
  {
    if t.order == [] {
      assert t.entries.Keys == {};
    } else {
      var last := t.order[|t.order| - 1];
      var init := t.order[..|t.order| - 1];
      var rest := Table(init, t.entries - {last});
      assert last !in init;
      forall k
        ensures k in rest.entries <==> k in rest.order
      {
        if k in t.order && k != last {
          var i :| 0 <= i < |t.order| && t.order[i] == k;
          assert i < |t.order| - 1 && init[i] == k;
        }
      }
      EntryCount(rest);
      assert t.entries.Keys == rest.entries.Keys + {last};
    }
  }

  /** Appending a new key with an entry named after it keeps a table well formed. */
  lemma {:induction false} WellFormedAppend(t: Table, key: string, e: Entry)
    requires WellFormed(t) && key !in t.entries
    requires e.name == key && e.sourceFileType == FastqFileType
    ensures WellFormed(Table(t.order + [key], t.entries[key := e]))
  {
    var order' := t.order + [key];
    forall k
      ensures k in t.entries[key := e] <==> k in order'
    {
      assert k in order' <==> k in t.order || k == key;
    }
  }

  /** Replacing the entry of a present key by one with the same name and type keeps a
      table well formed. */
  lemma {:induction false} WellFormedUpdate(t: Table, key: string, e: Entry)
    requires WellFormed(t) && key in t.entries
    requires e.name == key && e.sourceFileType == FastqFileType
    ensures WellFormed(Table(t.order, t.entries[key := e]))
  {
  }

  /** `add_source` on the table as a value: a file whose pair key is new opens an entry
      with the file as `source1` (after its subject and sample are parsed, which may
      raise); a file whose pair key is present becomes that entry's `source2`. */
  function Insert(t: Table, file: string): (r: Result<Table, Error>)
    requires WellFormed(t)
    ensures r.Err? <==> PairKey(file) !in t.entries && SubjectSampleIds(file).Err?
    ensures r.Err? ==> r.error == SubjectSampleIds(file).error
    ensures r.Ok? ==>
      && WellFormed(r.value)
      && PairKey(file) in r.value.entries
      && |t.order| <= |r.value.order| && r.value.order[..|t.order|] == t.order
      && (forall k :: k in t.entries && k != PairKey(file) ==>
            k in r.value.entries && r.value.entries[k] == t.entries[k])
  {
    var key := PairKey(file);
    if key in t.entries then
      var e := t.entries[key];
      var e' := e.(sourceFiles := e.sourceFiles.(source2 := Some(file)));
      WellFormedUpdate(t, key, e');
      Ok(Table(t.order, t.entries[key := e']))
    else
      match SubjectSampleIds(file)
      case Err(err) => Err(err)
      case Ok(ids) =>
        var e := Entry(SourceFiles(file, None), FastqFileType, ids.subjectId, ids.sampleId, key);
        WellFormedAppend(t, key, e);
        assert (t.order + [key])[..|t.order|] == t.order;
        Ok(Table(t.order + [key], t.entries[key := e]))
  }

  /** A file whose pair key is new: one more entry, appended at the end of the order,
      holding the file as `source1`, no `source2`, and the parsed subject and sample. */
  lemma {:induction false} InsertNewKey(t: Table, file: string)
    requires WellFormed(t) && PairKey(file) !in t.entries
    requires SubjectSampleIds(file).Ok?
    ensures var key, ids := PairKey(file), SubjectSampleIds(file).value;
            var r := Insert(t, file);
            && r.Ok?
            && r.value.order == t.order + [key]
            && |r.value.entries| == |t.entries| + 1
            && r.value.entries[key] == Entry(SourceFiles(file, None), FastqFileType, ids.subjectId, ids.sampleId, key)
  {
  }

  /** A file whose pair key is present: same order and count, and in that entry only
      `source2` changes, to this file. */
  lemma {:induction false} InsertKnownKey(t: Table, file: string)
    requires WellFormed(t) && PairKey(file) in t.entries
    ensures var key := PairKey(file);
            var r := Insert(t, file);
            var old_e := t.entries[key];
            && r.Ok?
            && r.value.order == t.order
            && |r.value.entries| == |t.entries|
            && r.value.entries[key] == old_e.(sourceFiles := SourceFiles(old_e.sourceFiles.source1, Some(file)))
  {
  }

  /** The two mate files of a pair, added one after the other to a table that has
      neither: a single new entry with the first as `source1` and the second as `source2`;
      a third file with the same pair key would replace `source2` again. */
  lemma {:induction false} MatesShareEntry(t: Table, first: string, second: string)
    requires WellFormed(t)
    requires PairKey(first) == PairKey(second) && PairKey(first) !in t.entries
    requires SubjectSampleIds(first).Ok?
    ensures var key := PairKey(first);
            var r1 := Insert(t, first);
            r1.Ok? && Insert(r1.value, second).Ok? &&
            var r2 := Insert(r1.value, second).value;
            && r2.order == t.order + [key]
            && r2.entries[key].sourceFiles == SourceFiles(first, Some(second))
            && r2.entries[key].name == key
  {
    InsertNewKey(t, first);
    InsertKnownKey(Insert(t, first).value, second);
  }

  /** `get_manifest`: the entries in the insertion order of their keys. */
  function Listing(t: Table): (r: seq<Entry>)
    requires WellFormed(t)
    ensures |r| == |t.order| == |t.entries|
    ensures forall i :: 0 <= i < |r| ==>
      r[i] == t.entries[t.order[i]] && r[i].name == t.order[i] && r[i].sourceFileType == FastqFileType
  {
    EntryCount(t);
    seq(|t.order|, i requires 0 <= i < |t.order| => t.entries[t.order[i]])
  }

  /** The `FASTQManifest` object: a dictionary updated in place, in insertion order. */
  class FastqManifest {
    var order: seq<string>
    var entries: map<string, Entry>

    function Snapshot(): Table
      reads this
    {
      Table(order, entries)
    }

    ghost predicate Valid()
      reads this
    {
      WellFormed(Snapshot())
    }

    constructor ()
      ensures Valid() && Snapshot() == EmptyTable
    {
      order := [];
      entries := map[];
    }

    /** `count`: the number of entries. */
    function Count(): (n: nat)
      reads this
      requires Valid()
      ensures n == |order|
    {
      EntryCount(Snapshot());
      |entries|
    }

    /** `add_source(file)`. */
    method AddSource(file: string) returns (outcome: Outcome<Error>)
      requires Valid()
      modifies this
      ensures Valid()
      ensures outcome.Pass? ==> Insert(old(Snapshot()), file) == Ok(Snapshot())
      ensures outcome.Fail? ==> Insert(old(Snapshot()), file) == Err(outcome.error) && Snapshot() == old(Snapshot())
    {
      var key := PairKey(file);
      // `not self._manifest.get(key)`: a stored entry is a non-empty dictionary, so this
      // is true exactly when the key is absent
      ghost var before := Snapshot();
      if key !in entries {
        var ids := SubjectSampleIds(file);
        if ids.Err? {
          return Fail(ids.error);
        }
        var e := Entry(SourceFiles(file, None), FastqFileType, ids.value.subjectId, ids.value.sampleId, key);
        entries := entries[key := e];
        order := order + [key];
      } else {
        var e := entries[key];
        entries := entries[key := e.(sourceFiles := e.sourceFiles.(source2 := Some(file)))];
      }
      assert Insert(before, file) == Ok(Snapshot());
      outcome := Pass;
    }

    /** `get_manifest()`: exactly `count` entries, in first-insertion order of their keys,
        each a FASTQ entry named after its key. */
    function GetManifest(): (r: seq<Entry>)
      reads this
      requires Valid()
      ensures |r| == Count()
      ensures forall i :: 0 <= i < |r| ==>
        r[i] == entries[order[i]] && r[i].name == order[i] && r[i].sourceFileType == FastqFileType
    {
      Listing(Snapshot())
    }
  }
}
