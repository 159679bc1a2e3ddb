/** `get_import_manifest` and `as_s3uri`: list the objects under a prefix and add every
    FASTQ file among them to a fresh manifest. */
module Importer {
  import opened Results
  import opened Strings
  import opened PosixPath
  import opened Manifest

  /** `OMICS_FILE_TYPES`: the extensions that are imported, with their source file type. */
  const OmicsFileTypes: seq<(string, string)> := [(".fq.gz", "FASTQ"), (".fastq.gz", "FASTQ")]

  /** The listing of a bucket under a prefix (`bucket.objects.filter(Prefix=prefix)`),
      as the keys it returns in order. */
  type Lister = (string, string) -> seq<string>

  /** `re.search(suffix + "$", key)` for a literal suffix: `$` matches at the very end and
      also just before a newline that ends the string. */
  predicate EndsAtDollar(key: string, suffix: string)
  {
    EndsWith(key, suffix) || EndsWith(key, suffix + "\n")
  }

  /** The extension test of `get_import_manifest`: the alternation of the escaped
      extensions of OMICS_FILE_TYPES, anchored with `$`. */
  predicate IsFastqKey(key: string)
  {
    exists i :: 0 <= i < |OmicsFileTypes| && EndsAtDollar(key, OmicsFileTypes[i].0)
  }

  /** `as_s3uri`: the key joined onto `s3://<bucket>`. */
  function AsS3Uri(bucket: string, key: string): (uri: string)
    ensures key != [] && key[0] == '/' ==> uri == key
    ensures (key == [] || key[0] != '/') && bucket != [] && bucket[|bucket| - 1] != '/' ==>
            uri == "s3://" + bucket + "/" + key
  {
    Join("s3://" + bucket, key)
  }

  /** The loop of `get_import_manifest` from table `t` over the remaining keys: FASTQ keys
      are added as URIs, all others skipped; the first failing `add_source` ends it. */
  function BuildFrom(t: Table, bucket: string, keys: seq<string>): (r: Result<Table, Error>)
    requires WellFormed(t)
    ensures r.Ok? ==> WellFormed(r.value)
    decreases |keys|
  {
    if keys == [] then Ok(t)
    else if !IsFastqKey(keys[0]) then BuildFrom(t, bucket, keys[1..])
    else
      match Insert(t, AsS3Uri(bucket, keys[0]))
      case Err(e) => Err(e)
      case Ok(next) => BuildFrom(next, bucket, keys[1..])
  }

  /** The manifest `get_import_manifest` returns for a listing, or the error it raises. */
  function Build(bucket: string, keys: seq<string>): Result<Table, Error>
  {
    BuildFrom(EmptyTable, bucket, keys)
  }

  /** The listed keys that pass the extension test, in order. */
  function FastqKeys(keys: seq<string>): (r: seq<string>)
    ensures |r| <= |keys|
    ensures forall k :: k in r ==> k in keys && IsFastqKey(k)
    ensures forall k :: k in keys && IsFastqKey(k) ==> k in r
  {
    if keys == [] then []
    else if IsFastqKey(keys[0]) then [keys[0]] + FastqKeys(keys[1..])
    else FastqKeys(keys[1..])
  }

  /** A single key is kept exactly when it has a FASTQ extension. */
  lemma {:induction false} FastqKeysOfOne(key: string)
    ensures FastqKeys([key]) == if IsFastqKey(key) then [key] else []
  {
    assert [key][1..] == [];
  }

  /** The FASTQ keys of a listing keep their listing order: filtering two listings one
      after the other is filtering their concatenation. */
  lemma {:induction false} FastqKeysAppend(a: seq<string>, b: seq<string>)
    ensures FastqKeys(a + b) == FastqKeys(a) + FastqKeys(b)
    decreases |a|
  {
    if a == [] {
      assert a + b == b;
    } else {
      assert (a + b)[0] == a[0] && (a + b)[1..] == a[1..] + b;
      FastqKeysAppend(a[1..], b);
    }
  }

  /** Keys without a FASTQ extension leave the manifest as it is: building from the whole
      listing is building from its FASTQ keys alone. */
  lemma {:induction false} BuildIgnoresOtherKeys(t: Table, bucket: string, keys: seq<string>)
    requires WellFormed(t)
    ensures BuildFrom(t, bucket, keys) == BuildFrom(t, bucket, FastqKeys(keys))
    decreases |keys|
  {
    if keys != [] {
      var rest := keys[1..];
      if IsFastqKey(keys[0]) {
        var fk := FastqKeys(keys);
        assert fk[0] == keys[0] && fk[1..] == FastqKeys(rest);
        match Insert(t, AsS3Uri(bucket, keys[0]))
        case Err(e) =>
        case Ok(t') => BuildIgnoresOtherKeys(t', bucket, rest);
      } else {
        BuildIgnoresOtherKeys(t, bucket, rest);
      }
    }
  }

  /** The table after the first listed key is handled. */
  function Step(t: Table, bucket: string, key: string): (r: Result<Table, Error>)
    requires WellFormed(t)
    ensures r.Ok? ==> WellFormed(r.value)
    ensures r.Ok? ==> |t.order| <= |r.value.order| && r.value.order[..|t.order|] == t.order
    ensures r.Ok? ==> forall k :: k in t.entries ==> k in r.value.entries
  {
    if IsFastqKey(key) then Insert(t, AsS3Uri(bucket, key)) else Ok(t)
  }

  lemma {:induction false} BuildFromUnfold(t: Table, bucket: string, keys: seq<string>)
    requires WellFormed(t) && keys != []
    ensures Step(t, bucket, keys[0]).Err? ==> BuildFrom(t, bucket, keys) == Err(Step(t, bucket, keys[0]).error)
    ensures Step(t, bucket, keys[0]).Ok? ==>
            BuildFrom(t, bucket, keys) == BuildFrom(Step(t, bucket, keys[0]).value, bucket, keys[1..])
  {
  }

  /** A listing whose FASTQ files all have a subject and a sample in their names always
      builds: only `get_subject_sample_ids` can make `add_source` raise. */
  lemma {:induction false} BuildFromSucceeds(t: Table, bucket: string, keys: seq<string>)
    requires WellFormed(t)
    requires forall i :: 0 <= i < |keys| && IsFastqKey(keys[i]) ==> SubjectSampleIds(AsS3Uri(bucket, keys[i])).Ok?
    ensures BuildFrom(t, bucket, keys).Ok?
    decreases |keys|
  {
    if keys != [] {
      BuildFromUnfold(t, bucket, keys);
      assert IsFastqKey(keys[0]) ==> SubjectSampleIds(AsS3Uri(bucket, keys[0])).Ok?;
      forall i | 0 <= i < |keys[1..]| && IsFastqKey(keys[1..][i])
        ensures SubjectSampleIds(AsS3Uri(bucket, keys[1..][i])).Ok?
      {
        assert keys[1..][i] == keys[i + 1];
      }
      BuildFromSucceeds(Step(t, bucket, keys[0]).value, bucket, keys[1..]);
    }
  }

  /** Building from two listings in a row: the first, then the second from its result;
      an error in the first ends the build. */
  lemma {:induction false} BuildFromAppend(t: Table, bucket: string, a: seq<string>, b: seq<string>)
    requires WellFormed(t)
    ensures BuildFrom(t, bucket, a).Err? ==> BuildFrom(t, bucket, a + b) == BuildFrom(t, bucket, a)
    ensures BuildFrom(t, bucket, a).Ok? ==>
            BuildFrom(t, bucket, a + b) == BuildFrom(BuildFrom(t, bucket, a).value, bucket, b)
    decreases |a|
  {
    if a == [] {
      assert a + b == b;
    } else {
      assert (a + b)[0] == a[0] && (a + b)[1..] == a[1..] + b;
      BuildFromUnfold(t, bucket, a);
      BuildFromUnfold(t, bucket, a + b);
      if Step(t, bucket, a[0]).Ok? {
        BuildFromAppend(Step(t, bucket, a[0]).value, bucket, a[1..], b);
      }
    }
  }

  /** The file at position `i` is FASTQ, the listing before it builds to a table that does
      not hold its pair key, and its read name yields no subject and sample: `add_source`
      raises on it. */
  ghost predicate FailsAt(t: Table, bucket: string, keys: seq<string>, i: nat)
    requires WellFormed(t)
  {
    && i < |keys| && IsFastqKey(keys[i])
    && BuildFrom(t, bucket, keys[..i]).Ok?
    && PairKey(AsS3Uri(bucket, keys[i])) !in BuildFrom(t, bucket, keys[..i]).value.entries
    && SubjectSampleIds(AsS3Uri(bucket, keys[i])).Err?
  }

  /** A file on which `add_source` raises after the first key stays one when the first
      key is put back in front. */
  lemma {:induction false} FailsAtCons(t: Table, bucket: string, keys: seq<string>, i: nat)
    requires WellFormed(t) && keys != [] && Step(t, bucket, keys[0]).Ok?
    requires FailsAt(Step(t, bucket, keys[0]).value, bucket, keys[1..], i)
    ensures FailsAt(t, bucket, keys, i + 1)
  {
    var front := keys[..i + 1];
    assert front[0] == keys[0] && front[1..] == keys[1..][..i];
    BuildFromUnfold(t, bucket, front);
    assert keys[1..][i] == keys[i + 1];
  }

  /** A failed build reports the error of a file on which `add_source` raises, with every
      file before it added. */
  lemma {:induction false} BuildFromFirstError(t: Table, bucket: string, keys: seq<string>)
    requires WellFormed(t)
    requires BuildFrom(t, bucket, keys).Err?
    ensures exists i: nat :: FailsAt(t, bucket, keys, i) &&
              BuildFrom(t, bucket, keys).error == SubjectSampleIds(AsS3Uri(bucket, keys[i])).error
    decreases |keys|
  {
    BuildFromUnfold(t, bucket, keys);
    var step := Step(t, bucket, keys[0]);
    if step.Err? {
      assert keys[..0] == [];
      assert FailsAt(t, bucket, keys, 0);
    } else {
      BuildFromFirstError(step.value, bucket, keys[1..]);
      var i: nat :| FailsAt(step.value, bucket, keys[1..], i) &&
                    BuildFrom(step.value, bucket, keys[1..]).error == SubjectSampleIds(AsS3Uri(bucket, keys[1..][i])).error;
      FailsAtCons(t, bucket, keys, i);
    }
  }

  /** One pass of the loop raises on a FASTQ file whose pair key is new and whose read
      name yields no subject and sample. */
  lemma {:induction false} StepFails(t: Table, bucket: string, key: string)
    requires WellFormed(t) && IsFastqKey(key)
    requires PairKey(AsS3Uri(bucket, key)) !in t.entries && SubjectSampleIds(AsS3Uri(bucket, key)).Err?
    ensures Step(t, bucket, key) == Err(SubjectSampleIds(AsS3Uri(bucket, key)).error)
  {
  }

  /** Conversely, a file on which `add_source` raises ends the build with its error. */
  lemma {:induction false} BuildFromFailsAt(t: Table, bucket: string, keys: seq<string>, i: nat)
    requires WellFormed(t)
    requires FailsAt(t, bucket, keys, i)
    ensures BuildFrom(t, bucket, keys) == Err(SubjectSampleIds(AsS3Uri(bucket, keys[i])).error)
  {
    var front, back := keys[..i], keys[i..];
    var u := BuildFrom(t, bucket, front).value;
    assert keys == front + back && back[0] == keys[i];
    BuildFromAppend(t, bucket, front, back);
    StepFails(u, bucket, keys[i]);
    BuildFromUnfold(u, bucket, back);
  }

  /** A successful build keeps the keys it started from, first in the order. */
  lemma {:induction false} BuildKeepsEarlierKeys(t: Table, bucket: string, keys: seq<string>, r: Table)
    requires WellFormed(t)
    requires BuildFrom(t, bucket, keys) == Ok(r)
    ensures |t.order| <= |r.order| && r.order[..|t.order|] == t.order
    ensures t.entries.Keys <= r.entries.Keys
    decreases |keys|
  {
    if keys != [] {
      BuildFromUnfold(t, bucket, keys);
      var t' := Step(t, bucket, keys[0]).value;
      BuildKeepsEarlierKeys(t', bucket, keys[1..], r);
      PrefixTrans(t.order, t'.order, r.order);
    }
  }

  /** The pair keys of the FASTQ keys in a listing. */
  ghost function ListedPairKeys(bucket: string, keys: seq<string>): set<string>
  {
    set i | 0 <= i < |keys| && IsFastqKey(keys[i]) :: PairKey(AsS3Uri(bucket, keys[i]))
  }

  lemma {:induction false} ListedPairKeysCons(bucket: string, keys: seq<string>)
    requires keys != []
    ensures ListedPairKeys(bucket, keys) ==
            (if IsFastqKey(keys[0]) then {PairKey(AsS3Uri(bucket, keys[0]))} else {}) + ListedPairKeys(bucket, keys[1..])
  {
    var rest := keys[1..];
    forall k | k in ListedPairKeys(bucket, rest)
      ensures k in ListedPairKeys(bucket, keys)
    {
      var j :| 0 <= j < |rest| && IsFastqKey(rest[j]) && k == PairKey(AsS3Uri(bucket, rest[j]));
      assert keys[j + 1] == rest[j];
    }
    forall k | k in ListedPairKeys(bucket, keys)
      ensures k in ListedPairKeys(bucket, rest) || (IsFastqKey(keys[0]) && k == PairKey(AsS3Uri(bucket, keys[0])))
    {
      var j :| 0 <= j < |keys| && IsFastqKey(keys[j]) && k == PairKey(AsS3Uri(bucket, keys[j]));
      if j > 0 {
        assert rest[j - 1] == keys[j];
      }
    }
  }

  /** A successful build has an entry for the pair key of every FASTQ key listed. */
  lemma {:induction false} BuildCoversFastqKeys(t: Table, bucket: string, keys: seq<string>, r: Table)
    requires WellFormed(t)
    requires BuildFrom(t, bucket, keys) == Ok(r)
    ensures ListedPairKeys(bucket, keys) <= r.entries.Keys
    decreases |keys|
  {
    if keys != [] {
      BuildFromUnfold(t, bucket, keys);
      var t' := Step(t, bucket, keys[0]).value;
      BuildCoversFastqKeys(t', bucket, keys[1..], r);
      BuildKeepsEarlierKeys(t', bucket, keys[1..], r);
      ListedPairKeysCons(bucket, keys);
    }
  }

  /** A successful build adds no entry but those of FASTQ keys in the listing. */
  lemma {:induction false} BuildAddsOnlyListed(t: Table, bucket: string, keys: seq<string>, r: Table)
    requires WellFormed(t)
    requires BuildFrom(t, bucket, keys) == Ok(r)
    ensures r.entries.Keys <= t.entries.Keys + ListedPairKeys(bucket, keys)
    decreases |keys|
  {
    if keys != [] {
      BuildFromUnfold(t, bucket, keys);
      var t' := Step(t, bucket, keys[0]).value;
      BuildAddsOnlyListed(t', bucket, keys[1..], r);
      ListedPairKeysCons(bucket, keys);
    }
  }

  /** The manifest of a listing has exactly one entry per pair key of its FASTQ objects. */
  lemma {:induction false} BuildKeys(bucket: string, keys: seq<string>, r: Table)
    requires Build(bucket, keys) == Ok(r)
    ensures r.entries.Keys == ListedPairKeys(bucket, keys)
  {
    BuildCoversFastqKeys(EmptyTable, bucket, keys, r);
    BuildAddsOnlyListed(EmptyTable, bucket, keys, r);
  }

  /** One pass of the loop of `get_import_manifest`: a key with a FASTQ extension is
      added to the manifest as an S3 URI, any other key is skipped. */
  method AddListed(manifest: FastqManifest, bucket: string, key: string) returns (outcome: Outcome<Error>)
    requires manifest.Valid()
    modifies manifest
    ensures manifest.Valid()
    ensures outcome.Pass? ==> Step(old(manifest.Snapshot()), bucket, key) == Ok(manifest.Snapshot())
    ensures outcome.Fail? ==> Step(old(manifest.Snapshot()), bucket, key) == Err(outcome.error)
    ensures outcome.Fail? ==> manifest.Snapshot() == old(manifest.Snapshot())
  {
    if IsFastqKey(key) {
      outcome := manifest.AddSource(AsS3Uri(bucket, key));
    } else {
      outcome := Pass;
    }
  }

  method GetImportManifest(bucket: string, prefix: string, list: Lister) returns (r: Result<FastqManifest, Error>)
    ensures r.Ok? ==> fresh(r.value) && r.value.Valid() && Build(bucket, list(bucket, prefix)) == Ok(r.value.Snapshot())
    ensures r.Err? ==> Build(bucket, list(bucket, prefix)) == Err(r.error)
  {
    var manifest := new FastqManifest();
    var objects := list(bucket, prefix);
    var i := 0;
    while i < |objects|
      invariant 0 <= i <= |objects|
      invariant manifest.Valid()
      invariant BuildFrom(manifest.Snapshot(), bucket, objects[i..]) == Build(bucket, objects)
    {
      ghost var before := manifest.Snapshot();
      assert objects[i..][0] == objects[i] && objects[i..][1..] == objects[i + 1..];
      BuildFromUnfold(before, bucket, objects[i..]);
      var outcome := AddListed(manifest, bucket, objects[i]);
      if outcome.Fail? {
        return Err(outcome.error);
      }
      i := i + 1;
    }
    return Ok(manifest);
  }
}
