/** `handler`: for every notification record whose key names the marker file, build the
    manifest of the folder the marker sits in; then start one read-set import job per
    chunk of at most 100 manifest entries and collect the job ids. */
module Dispatcher {
  import opened Results
  import opened Strings
  import opened PosixPath
  import opened Batching
  import opened Manifest
  import opened Importer

  /** The settings the module reads from the environment when it is loaded
      (`os.getenv`); an unset variable is None. */
  datatype Config = Config(markerFilename: Option<string>, storeArn: Option<string>, roleArn: Option<string>)

  /** One notification record: `record['s3']['bucket']['name']` and
      `record['s3']['object']['key']`. */
  datatype Record = Record(bucket: string, key: string)

  /** The bucket and listing prefix a marker stands for. */
  datatype Scope = Scope(bucket: string, prefix: string)

  /** The arguments of one `start_read_set_import_job` call. */
  datatype ImportRequest = ImportRequest(sequenceStoreId: string, roleArn: Option<string>, sources: seq<Entry>)

  /** What the import API answers: the new job's id, or the exception the call raised. */
  datatype JobReply = Started(id: string) | Rejected(reason: string)

  /** The import API as seen by one invocation: its reply to a request may depend on the
      requests this invocation sent before it (the first argument), so a repeated request
      can start a second job with a new id, and a call can be throttled because of the
      calls made before it. */
  type JobStarter = (seq<ImportRequest>, ImportRequest) -> JobReply

  /** What one invocation did: the start-job requests it sent, in order, and either the
      job ids it returns or the exception that ended it. */
  datatype Invocation = Invocation(submitted: seq<ImportRequest>, result: Result<seq<string>, Error>)

  /** The most sources one import job takes. */
  const BatchLimit := 100

  /** `TARGET_SEQUENCE_STORE_ARN.split('/')[1]`: the second '/'-separated field of the
      store ARN. An unset ARN or one without '/' raises when the module is loaded. */
  function StoreId(arn: Option<string>): (r: Result<string, Error>)
    ensures r.Ok? <==> arn.Some? && '/' in arn.value
    ensures r.Ok? ==> '/' !in r.value
    ensures arn.None? ==> r == Err(MissingSetting("TARGET_SEQUENCE_STORE_ARN"))
    ensures arn.Some? && '/' !in arn.value ==> r == Err(IndexOutOfRange(arn.value))
  {
    match arn
    case None => Err(MissingSetting("TARGET_SEQUENCE_STORE_ARN"))
    case Some(s) =>
      var fields := Split(s, '/');
      if |fields| < 2 then Err(IndexOutOfRange(s)) else Ok(fields[1])
  }

  /** For an ARN `<resource>/<id>[/...]` the store id is `<id>`. */
  lemma {:induction false} StoreIdOfArn(resource: string, id: string, rest: string)
    requires '/' !in resource && '/' !in id && (rest == [] || rest[0] == '/')
    ensures StoreId(Some(resource + "/" + id + rest)) == Ok(id)
  {
    SplitOfLeading(resource, '/', id, rest);
  }

  /** `path.basename(marker_key) == MARKER_FILENAME` (never true when it is unset). */
  predicate IsMarker(config: Config, key: string)
  {
    config.markerFilename.Some? && Basename(key) == config.markerFilename.value
  }

  /** The scope one record contributes: its bucket under the directory of its key when
      the key names the marker, nothing otherwise. */
  function ScopesOf(config: Config, record: Record): (s: seq<Scope>)
    ensures |s| <= 1
  {
    if IsMarker(config, record.key) then [Scope(record.bucket, Dirname(record.key))] else []
  }

  /** The scopes the records loop builds manifests for, in record order. */
  function MarkerScopes(config: Config, records: seq<Record>): (scopes: seq<Scope>)
    ensures |scopes| <= |records|
  {
    if records == [] then []
    else MarkerScopes(config, records[..|records| - 1]) + ScopesOf(config, records[|records| - 1])
  }

  lemma {:induction false} MarkerScopesSnoc(config: Config, records: seq<Record>, r: Record)
    ensures MarkerScopes(config, records + [r]) == MarkerScopes(config, records) + ScopesOf(config, r)
  {
    assert (records + [r])[..|records|] == records;
  }

  /** A marker record under folder `dir` (no trailing '/') lists its bucket under `dir`
      itself: the prefix is the folder path without a trailing '/'. */
  lemma {:induction false} MarkerRecordScope(config: Config, bucket: string, dir: string, name: string)
    requires config.markerFilename == Some(name)
    requires '/' !in name && (dir == [] || dir[|dir| - 1] != '/')
    ensures var key := if dir == [] then name else dir + "/" + name;
            MarkerScopes(config, [Record(bucket, key)]) == [Scope(bucket, dir)]
  {
    var key := if dir == [] then name else dir + "/" + name;
    var record := Record(bucket, key);
    MarkerKeyParts(dir, name);
    assert ScopesOf(config, record) == [Scope(bucket, dir)];
    MarkerScopesSnoc(config, [], record);
    assert [] + [record] == [record];
  }

  /** A marker record whose folder part is slashes only lists its bucket under those
      slashes: `/marker` lists under `/`, keeping the '/' at its end. */
  lemma {:induction false} MarkerRecordUnderSlashes(config: Config, bucket: string, slashes: string, name: string)
    requires config.markerFilename == Some(name)
    requires '/' !in name && slashes != [] && AllSlashes(slashes)
    ensures MarkerScopes(config, [Record(bucket, slashes + name)]) == [Scope(bucket, slashes)]
  {
    var record := Record(bucket, slashes + name);
    SlashesKeyParts(slashes, name);
    assert ScopesOf(config, record) == [Scope(bucket, slashes)];
    MarkerScopesSnoc(config, [], record);
    assert [] + [record] == [record];
  }

  /** A record whose file name is not the marker's contributes nothing, and neither does
      any record when no marker name is configured. */
  lemma {:induction false} OtherRecordIgnored(config: Config, record: Record)
    requires config.markerFilename.None? || Basename(record.key) != config.markerFilename.value
    ensures MarkerScopes(config, [record]) == []
  {
    MarkerScopesSnoc(config, [], record);
    assert [] + [record] == [record];
  }

  /** Any record whose base name is the marker contributes its bucket under the directory
      of its key, whatever the shape of that key. */
  lemma {:induction false} MarkerRecordAnyKey(config: Config, record: Record)
    requires IsMarker(config, record.key)
    ensures MarkerScopes(config, [record]) == [Scope(record.bucket, Dirname(record.key))]
  {
    MarkerScopesSnoc(config, [], record);
    assert [] + [record] == [record];
  }

  /** The records contribute their scopes independently and in order. */
  lemma {:induction false} MarkerScopesAppend(config: Config, a: seq<Record>, b: seq<Record>)
    ensures MarkerScopes(config, a + b) == MarkerScopes(config, a) + MarkerScopes(config, b)
    decreases |b|
  {
    if b == [] {
      assert a + b == a;
    } else {
      var b', r := b[..|b| - 1], b[|b| - 1];
      assert b == b' + [r];
      assert a + b == (a + b') + [r];
      MarkerScopesAppend(config, a, b');
      MarkerScopesSnoc(config, a + b', r);
      MarkerScopesSnoc(config, b', r);
      ConcatAssoc(MarkerScopes(config, a), MarkerScopes(config, b'), ScopesOf(config, r));
    }
  }

  /** `get_import_manifest` for one scope. */
  function ScopeManifest(s: Scope, list: Lister): Result<Table, Error>
  {
    Build(s.bucket, list(s.bucket, s.prefix))
  }

  /** The manifest of every scope in order, or the first error one of them raised. */
  function BuildAll(scopes: seq<Scope>, list: Lister): (r: Result<seq<Table>, Error>)
    ensures r.Ok? ==> |r.value| == |scopes|
  {
    if scopes == [] then Ok([])
    else
      var init, last := scopes[..|scopes| - 1], scopes[|scopes| - 1];
      match BuildAll(init, list)
      case Err(e) => Err(e)
      case Ok(tables) =>
        match ScopeManifest(last, list)
        case Err(e) => Err(e)
        case Ok(t) => Ok(tables + [t])
  }

  /** A successful build of several scopes is a successful build of all but the last,
      followed by the last scope's manifest. */
  lemma {:induction false} BuildAllLast(scopes: seq<Scope>, list: Lister, tables: seq<Table>)
    requires scopes != [] && BuildAll(scopes, list) == Ok(tables)
    ensures |tables| == |scopes|
    ensures BuildAll(scopes[..|scopes| - 1], list) == Ok(tables[..|scopes| - 1])
    ensures ScopeManifest(scopes[|scopes| - 1], list) == Ok(tables[|scopes| - 1])
  {
    var n := |scopes| - 1;
    var front := BuildAll(scopes[..n], list).value;
    assert tables == front + [tables[n]];
    assert tables[..n] == front;
  }

  /** Built manifests are each scope's manifest, in scope order. */
  lemma {:induction false} BuildAllParts(scopes: seq<Scope>, list: Lister, tables: seq<Table>)
    requires BuildAll(scopes, list) == Ok(tables)
    ensures |tables| == |scopes|
    ensures forall i :: 0 <= i < |scopes| ==> ScopeManifest(scopes[i], list) == Ok(tables[i])
    decreases |scopes|
  {
    if scopes != [] {
      var n := |scopes| - 1;
      var init, front := scopes[..n], tables[..n];
      BuildAllLast(scopes, list, tables);
      BuildAllParts(init, list, front);
      assert forall i :: 0 <= i < n ==> init[i] == scopes[i] && front[i] == tables[i];
    }
  }

  /** When every scope's manifest is built, the build of all of them succeeds with those
      manifests in scope order. */
  lemma {:induction false} BuildAllOfParts(scopes: seq<Scope>, list: Lister, tables: seq<Table>)
    requires |tables| == |scopes|
    requires forall i :: 0 <= i < |scopes| ==>
              ScopeManifest(scopes[i], list) == Ok(tables[i])
    ensures BuildAll(scopes, list) == Ok(tables)
    decreases |scopes|
  {
    if scopes != [] {
      var n := |scopes| - 1;
      var init := scopes[..n];
      forall i | 0 <= i < n
        ensures ScopeManifest(init[i], list) == Ok(tables[..n][i])
      {
        assert init[i] == scopes[i] && tables[..n][i] == tables[i];
      }
      BuildAllOfParts(init, list, tables[..n]);
      assert tables == tables[..n] + [tables[n]];
    }
  }

  /** When all scopes but the last build and the whole build fails, the last scope's
      manifest failed with the reported error. */
  lemma {:induction false} BuildAllFailsAtLast(scopes: seq<Scope>, list: Lister, tables: seq<Table>)
    requires scopes != [] && BuildAll(scopes[..|scopes| - 1], list) == Ok(tables)
    requires BuildAll(scopes, list).Err?
    ensures ScopeManifest(scopes[|scopes| - 1], list) == Err(BuildAll(scopes, list).error)
    ensures forall j :: 0 <= j < |scopes| - 1 ==> ScopeManifest(scopes[j], list).Ok?
  {
    var init := scopes[..|scopes| - 1];
    BuildAllParts(init, list, tables);
    forall j | 0 <= j < |scopes| - 1
      ensures ScopeManifest(scopes[j], list).Ok?
    {
      assert scopes[j] == init[j];
    }
  }

  /** A failed build reports the error of the first scope whose manifest failed. */
  lemma {:induction false} BuildAllFirstError(scopes: seq<Scope>, list: Lister)
    requires BuildAll(scopes, list).Err?
    ensures exists i :: (0 <= i < |scopes| &&
              ScopeManifest(scopes[i], list) == Err(BuildAll(scopes, list).error) &&
              forall j :: 0 <= j < i ==> ScopeManifest(scopes[j], list).Ok?)
    decreases |scopes|
  {
    var n := |scopes| - 1;
    var init := scopes[..n];
    if BuildAll(init, list).Err? {
      BuildAllFirstError(init, list);
      var i :| 0 <= i < |init| &&
              ScopeManifest(init[i], list) == Err(BuildAll(init, list).error) &&
              forall j :: 0 <= j < i ==> ScopeManifest(init[j], list).Ok?;
      assert scopes[i] == init[i];
      assert forall j :: 0 <= j < i ==> scopes[j] == init[j];
    } else {
      BuildAllFailsAtLast(scopes, list, BuildAll(init, list).value);
    }
  }

  /** Once a manifest fails, later scopes change nothing: the error stands. */
  lemma {:induction false} BuildAllStopsAtError(scopes: seq<Scope>, more: seq<Scope>, list: Lister)
    requires BuildAll(scopes, list).Err?
    ensures BuildAll(scopes + more, list) == BuildAll(scopes, list)
    decreases |more|
  {
    if more == [] {
      assert scopes + more == scopes;
    } else {
      var more' := more[..|more| - 1];
      assert (scopes + more)[..|scopes + more| - 1] == scopes + more';
      BuildAllStopsAtError(scopes, more', list);
    }
  }

  /** Adding one scope: its manifest is appended, or its error ends the build. */
  lemma {:induction false} BuildAllStep(scopes: seq<Scope>, s: Scope, list: Lister, tables: seq<Table>, t: Table)
    requires BuildAll(scopes, list) == Ok(tables)
    requires ScopeManifest(s, list) == Ok(t)
    ensures BuildAll(scopes + [s], list) == Ok(tables + [t])
  {
    assert (scopes + [s])[..|scopes|] == scopes;
  }

  lemma {:induction false} BuildAllFails(scopes: seq<Scope>, s: Scope, list: Lister, tables: seq<Table>, e: Error)
    requires BuildAll(scopes, list) == Ok(tables)
    requires ScopeManifest(s, list) == Err(e)
    ensures BuildAll(scopes + [s], list) == Err(e)
  {
    assert (scopes + [s])[..|scopes|] == scopes;
  }

  /** The scopes of the first `i + 1` records: those of the first `i`, and the scope of
      record `i` when it is a marker. */
  lemma {:induction false} MarkerScopesPrefix(config: Config, records: seq<Record>, i: nat)
    requires i < |records|
    ensures MarkerScopes(config, records[..i + 1]) == MarkerScopes(config, records[..i]) + ScopesOf(config, records[i])
  {
    assert records[..i + 1] == records[..i] + [records[i]];
    MarkerScopesSnoc(config, records[..i], records[i]);
  }

  lemma {:induction false} StopsAtError(config: Config, records: seq<Record>, i: nat, list: Lister)
    requires i < |records|
    requires BuildAll(MarkerScopes(config, records[..i + 1]), list).Err?
    ensures BuildAll(MarkerScopes(config, records), list) == BuildAll(MarkerScopes(config, records[..i + 1]), list)
  {
    var done, rest := records[..i + 1], records[i + 1..];
    TakeDrop(records, i + 1);
    MarkerScopesAppend(config, done, rest);
    BuildAllStopsAtError(MarkerScopes(config, done), MarkerScopes(config, rest), list);
  }

  /** A record that is not a marker adds no scope. */
  lemma {:induction false} CollectSkips(config: Config, records: seq<Record>, i: nat)
    requires i < |records| && !IsMarker(config, records[i].key)
    ensures MarkerScopes(config, records[..i + 1]) == MarkerScopes(config, records[..i])
  {
    MarkerScopesPrefix(config, records, i);
    assert MarkerScopes(config, records[..i]) + [] == MarkerScopes(config, records[..i]);
  }

  /** A marker whose folder's manifest is built adds that manifest after the others. */
  lemma {:induction false} CollectBuilds(config: Config, records: seq<Record>, i: nat, list: Lister, tables: seq<Table>, t: Table)
    requires i < |records| && IsMarker(config, records[i].key)
    requires BuildAll(MarkerScopes(config, records[..i]), list) == Ok(tables)
    requires Build(records[i].bucket, list(records[i].bucket, Dirname(records[i].key))) == Ok(t)
    ensures BuildAll(MarkerScopes(config, records[..i + 1]), list) == Ok(tables + [t])
  {
    MarkerScopesPrefix(config, records, i);
    BuildAllStep(MarkerScopes(config, records[..i]), Scope(records[i].bucket, Dirname(records[i].key)), list, tables, t);
  }

  /** A marker whose folder's manifest fails ends the whole build with that error. */
  lemma {:induction false} CollectFails(config: Config, records: seq<Record>, i: nat, list: Lister, tables: seq<Table>, e: Error)
    requires i < |records| && IsMarker(config, records[i].key)
    requires BuildAll(MarkerScopes(config, records[..i]), list) == Ok(tables)
    requires Build(records[i].bucket, list(records[i].bucket, Dirname(records[i].key))) == Err(e)
    ensures BuildAll(MarkerScopes(config, records), list) == Err(e)
  {
    MarkerScopesPrefix(config, records, i);
    BuildAllFails(MarkerScopes(config, records[..i]), Scope(records[i].bucket, Dirname(records[i].key)), list, tables, e);
    StopsAtError(config, records, i, list);
  }

  /** The start-job requests for a manifest's chunks, one per chunk. */
  function ChunkRequests(storeId: string, roleArn: Option<string>, chunks: seq<seq<Entry>>): (reqs: seq<ImportRequest>)
    ensures |reqs| == |chunks|
    ensures forall i :: 0 <= i < |chunks| ==> reqs[i] == ImportRequest(storeId, roleArn, chunks[i])
  {
    seq(|chunks|, i requires 0 <= i < |chunks| => ImportRequest(storeId, roleArn, chunks[i]))
  }

  ghost predicate AllWellFormed(tables: seq<Table>)
  {
    forall i :: 0 <= i < |tables| ==> WellFormed(tables[i])
  }

  /** The current contents of each manifest object. */
  function Snapshots(manifests: seq<FastqManifest>): (r: seq<Table>)
    reads manifests
    ensures |r| == |manifests|
    ensures forall j :: 0 <= j < |manifests| ==> r[j] == manifests[j].Snapshot()
  {
    seq(|manifests|, j reads manifests requires 0 <= j < |manifests| => manifests[j].Snapshot())
  }

  lemma {:induction false} SnapshotsSnoc(manifests: seq<FastqManifest>, m: FastqManifest)
    ensures Snapshots(manifests + [m]) == Snapshots(manifests) + [m.Snapshot()]
  {
  }

  /** A sequence with the length and the elements `Listing` promises is `Listing`. */
  lemma {:induction false} ListingUnique(t: Table, r: seq<Entry>)
    requires WellFormed(t) && |r| == |t.order|
    requires forall i :: 0 <= i < |r| ==> r[i] == t.entries[t.order[i]]
    ensures r == Listing(t)
  {
  }

  lemma {:induction false} AllWellFormedSnoc(tables: seq<Table>, t: Table)
    requires AllWellFormed(tables) && WellFormed(t)
    ensures AllWellFormed(tables + [t])
  {
  }

  /** The entries of each manifest (`get_manifest()`), manifest by manifest. */
  function ListingsOf(tables: seq<Table>): (r: seq<seq<Entry>>)
    requires AllWellFormed(tables)
    ensures |r| == |tables|
    ensures forall i :: 0 <= i < |tables| ==> r[i] == Listing(tables[i])
    ensures forall i :: 0 <= i < |tables| ==> |r[i]| == |tables[i].entries|
  {
    seq(|tables|, i requires 0 <= i < |tables| => Listing(tables[i]))
  }

  /** Every start-job request of the batching loop, in order: the chunks of each
      manifest's entries in turn. */
  function Requests(storeId: string, roleArn: Option<string>, listings: seq<seq<Entry>>): (reqs: seq<ImportRequest>)
    ensures forall i :: 0 <= i < |reqs| ==>
              reqs[i].sequenceStoreId == storeId && reqs[i].roleArn == roleArn &&
              1 <= |reqs[i].sources| <= BatchLimit
  {
    if listings == [] then []
    else
      Requests(storeId, roleArn, listings[..|listings| - 1]) +
      ChunkRequests(storeId, roleArn, Batched(listings[|listings| - 1], BatchLimit))
  }

  /** The number of jobs the manifests call for: ceil(count / 100) each. */
  function TotalChunks(listings: seq<seq<Entry>>): nat
  {
    if listings == [] then 0
    else TotalChunks(listings[..|listings| - 1]) + ChunkCount(|listings[|listings| - 1]|, BatchLimit)
  }

  /** One request per chunk: the number of requests is the sum over the manifests of
      ceil(count / 100). */
  lemma {:induction false} RequestCount(storeId: string, roleArn: Option<string>, listings: seq<seq<Entry>>)
    ensures |Requests(storeId, roleArn, listings)| == TotalChunks(listings)
    decreases |listings|
  {
    if listings != [] {
      RequestCount(storeId, roleArn, listings[..|listings| - 1]);
    }
  }

  /** The sources of a sequence of requests, request by request. */
  function SourcesOf(reqs: seq<ImportRequest>): (r: seq<seq<Entry>>)
    ensures |r| == |reqs|
  {
    seq(|reqs|, i requires 0 <= i < |reqs| => reqs[i].sources)
  }

  lemma {:induction false} SourcesOfAppend(a: seq<ImportRequest>, b: seq<ImportRequest>)
    ensures SourcesOf(a + b) == SourcesOf(a) + SourcesOf(b)
  {
  }

  lemma {:induction false} SourcesOfChunks(storeId: string, roleArn: Option<string>, chunks: seq<seq<Entry>>)
    ensures SourcesOf(ChunkRequests(storeId, roleArn, chunks)) == chunks
  {
  }

  /** Laid end to end, the sources of requests followed by a manifest's chunk requests
      are the sources of the first followed by that manifest's chunks. */
  lemma {:induction false} SourcesThenChunks(storeId: string, roleArn: Option<string>, front: seq<ImportRequest>, chunks: seq<seq<Entry>>)
    ensures Flatten(SourcesOf(front + ChunkRequests(storeId, roleArn, chunks))) == Flatten(SourcesOf(front)) + Flatten(chunks)
  {
    SourcesOfAppend(front, ChunkRequests(storeId, roleArn, chunks));
    SourcesOfChunks(storeId, roleArn, chunks);
    FlattenAppend(SourcesOf(front), chunks);
  }

  /** The requests carry every manifest entry exactly once and in order: laid end to end,
      their sources are the manifests' entries laid end to end. */
  lemma {:induction false} RequestsCoverManifests(storeId: string, roleArn: Option<string>, listings: seq<seq<Entry>>)
    ensures Flatten(SourcesOf(Requests(storeId, roleArn, listings))) == Flatten(listings)
    decreases |listings|
  {
    if listings != [] {
      var init, last := listings[..|listings| - 1], listings[|listings| - 1];
      RequestsCoverManifests(storeId, roleArn, init);
      SourcesThenChunks(storeId, roleArn, Requests(storeId, roleArn, init), Batched(last, BatchLimit));
      assert listings == init + [last];
      FlattenSnoc(init, last);
    }
  }

  /** The manifests' requests follow one another: those of `a`, then those of `b`. */
  lemma {:induction false} RequestsAppend(storeId: string, roleArn: Option<string>, a: seq<seq<Entry>>, b: seq<seq<Entry>>)
    ensures Requests(storeId, roleArn, a + b) == Requests(storeId, roleArn, a) + Requests(storeId, roleArn, b)
    decreases |b|
  {
    if b == [] {
      assert a + b == a;
    } else {
      var b' := b[..|b| - 1];
      var last := ChunkRequests(storeId, roleArn, Batched(b[|b| - 1], BatchLimit));
      assert (a + b)[..|a + b| - 1] == a + b';
      assert (a + b)[|a + b| - 1] == b[|b| - 1];
      assert Requests(storeId, roleArn, a + b) == Requests(storeId, roleArn, a + b') + last;
      RequestsAppend(storeId, roleArn, a, b');
      ConcatAssoc(Requests(storeId, roleArn, a), Requests(storeId, roleArn, b'), last);
    }
  }

  /** The requests of the first `j + 1` manifests: those of the first `j`, then the
      chunks of manifest `j`. */
  lemma {:induction false} RequestsPrefix(storeId: string, roleArn: Option<string>, listings: seq<seq<Entry>>, j: nat)
    requires j < |listings|
    ensures Requests(storeId, roleArn, listings[..j + 1]) ==
            Requests(storeId, roleArn, listings[..j]) + ChunkRequests(storeId, roleArn, Batched(listings[j], BatchLimit))
  {
    assert listings[..j + 1][..j] == listings[..j];
  }

  lemma {:induction false} ChunkRequestsSnoc(storeId: string, roleArn: Option<string>, chunks: seq<seq<Entry>>, b: nat)
    requires b < |chunks|
    ensures ChunkRequests(storeId, roleArn, chunks[..b + 1]) ==
            ChunkRequests(storeId, roleArn, chunks[..b]) + [ImportRequest(storeId, roleArn, chunks[b])]
  {
  }

  lemma {:induction false} ChunkRequestsSplit(storeId: string, roleArn: Option<string>, chunks: seq<seq<Entry>>, n: nat)
    requires n <= |chunks|
    ensures ChunkRequests(storeId, roleArn, chunks) ==
            ChunkRequests(storeId, roleArn, chunks[..n]) + ChunkRequests(storeId, roleArn, chunks[n..])
  {
  }

  /** Sending the requests in order, after the requests `before` were sent in the same
      invocation: each call either starts a job, whose id is kept, or raises, which ends
      the invocation right after that request. */
  function Submit(before: seq<ImportRequest>, reqs: seq<ImportRequest>, startJob: JobStarter): (inv: Invocation)
    ensures |inv.submitted| <= |reqs| && inv.submitted == reqs[..|inv.submitted|]
    ensures inv.result.Ok? ==> inv.submitted == reqs && |inv.result.value| == |reqs|
    decreases |reqs|
  {
    if reqs == [] then Invocation([], Ok([]))
    else
      match startJob(before, reqs[0])
      case Rejected(why) => Invocation([reqs[0]], Err(JobRejected(why)))
      case Started(id) =>
        var rest := Submit(before + [reqs[0]], reqs[1..], startJob);
        Invocation([reqs[0]] + rest.submitted,
                   if rest.result.Ok? then Ok([id] + rest.result.value) else rest.result)
  }

  /** The requests sent before the one at position `i`. */
  lemma {:induction false} HistoryStep(before: seq<ImportRequest>, reqs: seq<ImportRequest>, i: nat)
    requires 1 <= i <= |reqs|
    ensures (before + [reqs[0]]) + reqs[1..][..i - 1] == before + reqs[..i]
  {
    assert reqs[..i] == [reqs[0]] + reqs[1..][..i - 1];
  }

  /** A run of calls that succeeds sent every request, and each started the job whose id
      stands at its position, given the requests sent before it. */
  lemma {:induction false} SubmitOkMeaning(before: seq<ImportRequest>, reqs: seq<ImportRequest>, startJob: JobStarter)
    requires Submit(before, reqs, startJob).result.Ok?
    ensures forall i :: 0 <= i < |reqs| ==>
              startJob(before + reqs[..i], reqs[i]) == Started(Submit(before, reqs, startJob).result.value[i])
    decreases |reqs|
  {
    if reqs != [] {
      var before' := before + [reqs[0]];
      var rest := Submit(before', reqs[1..], startJob);
      SubmitOkMeaning(before', reqs[1..], startJob);
      var ids := Submit(before, reqs, startJob).result.value;
      assert ids == [startJob(before, reqs[0]).id] + rest.result.value;
      assert before + reqs[..0] == before;
      forall i | 1 <= i < |reqs|
        ensures startJob(before + reqs[..i], reqs[i]) == Started(ids[i])
      {
        HistoryStep(before, reqs, i);
        assert reqs[i] == reqs[1..][i - 1] && ids[i] == rest.result.value[i - 1];
      }
    }
  }

  /** A run of calls that fails: every request before the last one sent started a job,
      and the last one raised the reported error. */
  lemma {:induction false} SubmitErrMeaning(before: seq<ImportRequest>, reqs: seq<ImportRequest>, startJob: JobStarter)
    requires Submit(before, reqs, startJob).result.Err?
    ensures var inv := Submit(before, reqs, startJob);
            var n := |inv.submitted|;
            && n >= 1
            && (forall i :: 0 <= i < n - 1 ==> startJob(before + reqs[..i], reqs[i]).Started?)
            && inv.result.error.JobRejected?
            && startJob(before + reqs[..n - 1], reqs[n - 1]) == Rejected(inv.result.error.reason)
    decreases |reqs|
  {
    assert before + reqs[..0] == before;
    if startJob(before, reqs[0]).Started? {
      var before' := before + [reqs[0]];
      var rest := Submit(before', reqs[1..], startJob);
      SubmitErrMeaning(before', reqs[1..], startJob);
      var sent := Submit(before, reqs, startJob).submitted;
      assert sent == [reqs[0]] + rest.submitted;
      forall i | 1 <= i < |sent| - 1
        ensures startJob(before + reqs[..i], reqs[i]).Started?
      {
        HistoryStep(before, reqs, i);
        assert reqs[i] == reqs[1..][i - 1];
      }
      HistoryStep(before, reqs, |sent| - 1);
      assert reqs[|sent| - 1] == reqs[1..][|rest.submitted| - 1];
    }
  }

  /** When every call starts a job, all requests are sent and the ids come back in order. */
  lemma {:induction false} SubmitAllStarted(before: seq<ImportRequest>, reqs: seq<ImportRequest>, ids: seq<string>, startJob: JobStarter)
    requires |ids| == |reqs|
    requires forall i :: 0 <= i < |reqs| ==> startJob(before + reqs[..i], reqs[i]) == Started(ids[i])
    ensures Submit(before, reqs, startJob) == Invocation(reqs, Ok(ids))
    decreases |reqs|
  {
    if reqs != [] {
      var before' := before + [reqs[0]];
      forall i | 0 <= i < |reqs| - 1
        ensures startJob(before' + reqs[1..][..i], reqs[1..][i]) == Started(ids[1..][i])
      {
        HistoryStep(before, reqs, i + 1);
      }
      SubmitAllStarted(before', reqs[1..], ids[1..], startJob);
      assert before + reqs[..0] == before;
      assert [reqs[0]] + reqs[1..] == reqs;
      assert [ids[0]] + ids[1..] == ids;
    }
  }

  /** When the calls for `done` start jobs and the next one raises, nothing after it is
      sent and the invocation ends with that error. */
  lemma {:induction false} SubmitStopsAtRejection(before: seq<ImportRequest>, done: seq<ImportRequest>, failing: ImportRequest,
                                                  rest: seq<ImportRequest>, startJob: JobStarter)
    requires forall i :: 0 <= i < |done| ==> startJob(before + done[..i], done[i]).Started?
    requires startJob(before + done, failing).Rejected?
    ensures Submit(before, done + [failing] + rest, startJob) ==
            Invocation(done + [failing], Err(JobRejected(startJob(before + done, failing).reason)))
    decreases |done|
  {
    var reqs := done + [failing] + rest;
    if done == [] {
      assert reqs[0] == failing;
      assert before + done == before;
    } else {
      var before' := before + [done[0]];
      assert before + done[..0] == before;
      assert reqs[0] == done[0];
      assert reqs[1..] == done[1..] + [failing] + rest;
      forall i | 0 <= i < |done| - 1
        ensures startJob(before' + done[1..][..i], done[1..][i]).Started?
      {
        HistoryStep(before, done, i + 1);
      }
      HistoryStep(before, done, |done|);
      assert before' + done[1..] == before + done;
      SubmitStopsAtRejection(before', done[1..], failing, rest, startJob);
      assert [done[0]] + (done[1..] + [failing]) == done + [failing];
    }
  }

  lemma {:induction false} SubmitOne(before: seq<ImportRequest>, r: ImportRequest, startJob: JobStarter)
    ensures startJob(before, r).Started? ==>
              Submit(before, [r], startJob) == Invocation([r], Ok([startJob(before, r).id]))
    ensures startJob(before, r).Rejected? ==>
              Submit(before, [r], startJob) == Invocation([r], Err(JobRejected(startJob(before, r).reason)))
  {
    assert [r][1..] == [];
    assert [r] + [] == [r];
    if startJob(before, r).Started? {
      assert [startJob(before, r).id] + [] == [startJob(before, r).id];
    }
  }

  /** After requests that all start jobs, the rest are sent as a run of their own that
      the API sees after those requests: the ids of the two runs follow one another, or
      the second run's error ends the whole. */
  lemma {:induction false} SubmitAppend(before: seq<ImportRequest>, a: seq<ImportRequest>, b: seq<ImportRequest>, startJob: JobStarter)
    requires Submit(before, a, startJob).result.Ok?
    ensures Submit(before, a + b, startJob).submitted == a + Submit(before + a, b, startJob).submitted
    ensures Submit(before + a, b, startJob).result.Ok? ==>
              Submit(before, a + b, startJob).result ==
              Ok(Submit(before, a, startJob).result.value + Submit(before + a, b, startJob).result.value)
    ensures Submit(before + a, b, startJob).result.Err? ==>
              Submit(before, a + b, startJob).result == Submit(before + a, b, startJob).result
    decreases |a|
  {
    if a == [] {
      assert a + b == b;
      assert before + a == before;
      if Submit(before, b, startJob).result.Ok? {
        assert [] + Submit(before, b, startJob).result.value == Submit(before, b, startJob).result.value;
      }
    } else {
      var before' := before + [a[0]];
      assert (a + b)[0] == a[0];
      assert (a + b)[1..] == a[1..] + b;
      assert before' + a[1..] == before + a;
      SubmitAppend(before', a[1..], b, startJob);
      ConcatAssoc([a[0]], a[1..], Submit(before + a, b, startJob).submitted);
      assert [a[0]] + a[1..] == a;
      if Submit(before + a, b, startJob).result.Ok? {
        ConcatAssoc([startJob(before, a[0]).id], Submit(before', a[1..], startJob).result.value,
                    Submit(before + a, b, startJob).result.value);
      }
    }
  }

  /** Once a call raises, the requests after it change nothing. */
  lemma {:induction false} SubmitStopsAtError(before: seq<ImportRequest>, a: seq<ImportRequest>, b: seq<ImportRequest>, startJob: JobStarter)
    requires Submit(before, a, startJob).result.Err?
    ensures Submit(before, a + b, startJob) == Submit(before, a, startJob)
    decreases |a|
  {
    assert (a + b)[0] == a[0];
    if startJob(before, a[0]).Started? {
      assert (a + b)[1..] == a[1..] + b;
      SubmitStopsAtError(before + [a[0]], a[1..], b, startJob);
    }
  }

  /** Nothing deduplicates requests: when the API starts a job for the first call and
      another for the repeat, the same request sent twice starts both, and both ids are
      returned in order. */
  lemma {:induction false} RepeatedRequestStartsTwoJobs(r: ImportRequest, first: string, second: string, startJob: JobStarter)
    requires startJob([], r) == Started(first) && startJob([r], r) == Started(second)
    ensures Submit([], [r, r], startJob) == Invocation([r, r], Ok([first, second]))
  {
    var reqs := [r, r];
    assert [] + reqs[..0] == [] && [] + reqs[..1] == [r];
    SubmitAllStarted([], reqs, [first, second], startJob);
  }

  /** Every manifest that was built is well formed. */
  lemma {:induction false} BuiltTablesWellFormed(scopes: seq<Scope>, list: Lister, tables: seq<Table>)
    requires BuildAll(scopes, list) == Ok(tables)
    ensures AllWellFormed(tables)
  {
    BuildAllParts(scopes, list, tables);
    forall i | 0 <= i < |tables|
      ensures WellFormed(tables[i])
    {
      assert ScopeManifest(scopes[i], list) == Ok(tables[i]);
    }
  }

  /** The whole invocation: the store id is resolved when the module loads, then every
      marker's manifest is built, and only then are the jobs started. */
  function Invoke(config: Config, records: seq<Record>, list: Lister, startJob: JobStarter): (inv: Invocation)
    ensures inv.submitted != [] ==>
              StoreId(config.storeArn).Ok? && BuildAll(MarkerScopes(config, records), list).Ok?
    ensures inv.result.Ok? ==> |inv.result.value| == |inv.submitted|
  {
    match StoreId(config.storeArn)
    case Err(e) => Invocation([], Err(e))
    case Ok(storeId) =>
      match BuildAll(MarkerScopes(config, records), list)
      case Err(e) => Invocation([], Err(e))
      case Ok(tables) =>
        BuiltTablesWellFormed(MarkerScopes(config, records), list, tables);
        Submit([], Requests(storeId, config.roleArn, ListingsOf(tables)), startJob)
  }

  /** Every request sent goes to the configured store with the configured role and
      carries between 1 and 100 sources. */
  lemma {:induction false} InvokeRequests(config: Config, records: seq<Record>, list: Lister, startJob: JobStarter)
    ensures forall r :: r in Invoke(config, records, list, startJob).submitted ==>
              StoreId(config.storeArn) == Ok(r.sequenceStoreId) && r.roleArn == config.roleArn &&
              1 <= |r.sources| <= BatchLimit
  {
    var inv := Invoke(config, records, list, startJob);
    if inv.submitted != [] {
      var storeId := StoreId(config.storeArn).value;
      var tables := BuildAll(MarkerScopes(config, records), list).value;
      BuiltTablesWellFormed(MarkerScopes(config, records), list, tables);
      var reqs := Requests(storeId, config.roleArn, ListingsOf(tables));
      assert inv == Submit([], reqs, startJob);
      assert forall r :: r in inv.submitted ==> r in reqs;
    }
  }

  /** A run that ends without error returns one job id per chunk: for each manifest,
      ceil(count / 100) of them. */
  lemma {:induction false} InvokeJobCount(config: Config, records: seq<Record>, list: Lister, startJob: JobStarter,
                       storeId: string, tables: seq<Table>)
    requires StoreId(config.storeArn) == Ok(storeId)
    requires BuildAll(MarkerScopes(config, records), list) == Ok(tables)
    requires Invoke(config, records, list, startJob).result.Ok?
    ensures AllWellFormed(tables)
    ensures |Invoke(config, records, list, startJob).result.value| == TotalChunks(ListingsOf(tables))
  {
    BuiltTablesWellFormed(MarkerScopes(config, records), list, tables);
    RequestCount(storeId, config.roleArn, ListingsOf(tables));
  }

  /** The records loop of `handler`: a manifest for every marker record, in order, or
      the exception the first failing one raised. */
  method CollectManifests(config: Config, records: seq<Record>, list: Lister)
      returns (r: Result<seq<FastqManifest>, Error>, ghost tables: seq<Table>)
    ensures r.Ok? ==> BuildAll(MarkerScopes(config, records), list) == Ok(tables)
    ensures r.Ok? ==> AllWellFormed(tables) && Snapshots(r.value) == tables
    ensures r.Err? ==> BuildAll(MarkerScopes(config, records), list) == Err(r.error)
  {
    var manifests: seq<FastqManifest> := [];
    tables := [];
    var i := 0;
    while i < |records|
      invariant 0 <= i <= |records|
      invariant AllWellFormed(tables)
      invariant Snapshots(manifests) == tables
      invariant BuildAll(MarkerScopes(config, records[..i]), list) == Ok(tables)
    {
      var record := records[i];
      if IsMarker(config, record.key) {
        var built := GetImportManifest(record.bucket, Dirname(record.key), list);
        if built.Err? {
          CollectFails(config, records, i, list, tables, built.error);
          return Err(built.error), tables;
        }
        ghost var t := built.value.Snapshot();
        CollectBuilds(config, records, i, list, tables, t);
        AllWellFormedSnoc(tables, t);
        SnapshotsSnoc(manifests, built.value);
        manifests := manifests + [built.value];
        tables := tables + [t];
      } else {
        CollectSkips(config, records, i);
      }
      i := i + 1;
    }
    assert records[..i] == records;
    return Ok(manifests), tables;
  }

  /** The inner loop of `handler`: one start-job call per chunk of a manifest, in order,
      stopping at the first call that raises. */
  method StartBatches(storeId: string, roleArn: Option<string>, batches: seq<seq<Entry>>,
                      before: seq<ImportRequest>, startJob: JobStarter) returns (inv: Invocation)
    ensures inv == Submit(before, ChunkRequests(storeId, roleArn, batches), startJob)
  {
    var sent: seq<ImportRequest> := [];
    var ids: seq<string> := [];
    var b := 0;
    while b < |batches|
      invariant 0 <= b <= |batches|
      invariant Submit(before, ChunkRequests(storeId, roleArn, batches[..b]), startJob) == Invocation(sent, Ok(ids))
    {
      var request := ImportRequest(storeId, roleArn, batches[b]);
      var reply := startJob(before + sent, request);
      ChunkRequestsSnoc(storeId, roleArn, batches, b);
      SubmitOne(before + sent, request, startJob);
      SubmitAppend(before, ChunkRequests(storeId, roleArn, batches[..b]), [request], startJob);
      if reply.Rejected? {
        ChunkRequestsSplit(storeId, roleArn, batches, b + 1);
        SubmitStopsAtError(before, ChunkRequests(storeId, roleArn, batches[..b + 1]),
                           ChunkRequests(storeId, roleArn, batches[b + 1..]), startJob);
        return Invocation(sent + [request], Err(JobRejected(reply.reason)));
      }
      sent := sent + [request];
      ids := ids + [reply.id];
      b := b + 1;
    }
    assert batches[..b] == batches;
    return Invocation(sent, Ok(ids));
  }

  /** Sending the chunks of the next manifest after those of the manifests before it:
      either all of them start and the run goes on, or one is refused and the run over
      all manifests ends there. */
  lemma {:induction false} SubmitNextListing(storeId: string, roleArn: Option<string>, listings: seq<seq<Entry>>, j: nat,
                          sent: seq<ImportRequest>, ids: seq<string>, startJob: JobStarter, started: Invocation)
    requires j < |listings|
    requires Submit([], Requests(storeId, roleArn, listings[..j]), startJob) == Invocation(sent, Ok(ids))
    requires started == Submit(sent, ChunkRequests(storeId, roleArn, Batched(listings[j], BatchLimit)), startJob)
    ensures started.result.Ok? ==>
              Submit([], Requests(storeId, roleArn, listings[..j + 1]), startJob) ==
              Invocation(sent + started.submitted, Ok(ids + started.result.value))
    ensures started.result.Err? ==>
              Submit([], Requests(storeId, roleArn, listings), startJob) == Invocation(sent + started.submitted, started.result)
  {
    var done := Requests(storeId, roleArn, listings[..j]);
    var next := ChunkRequests(storeId, roleArn, Batched(listings[j], BatchLimit));
    RequestsPrefix(storeId, roleArn, listings, j);
    SubmitAppend([], done, next, startJob);
    assert [] + done == sent;
    if started.result.Err? {
      TakeDrop(listings, j + 1);
      RequestsAppend(storeId, roleArn, listings[..j + 1], listings[j + 1..]);
      SubmitStopsAtError([], done + next, Requests(storeId, roleArn, listings[j + 1..]), startJob);
    }
  }

  /** The outer loop of `handler`: each manifest's entries in chunks of at most 100,
      manifest after manifest, stopping at the first call that raises. */
  method StartJobs(storeId: string, roleArn: Option<string>, manifests: seq<FastqManifest>,
                   ghost tables: seq<Table>, startJob: JobStarter) returns (inv: Invocation)
    requires AllWellFormed(tables) && Snapshots(manifests) == tables
    ensures inv == Submit([], Requests(storeId, roleArn, ListingsOf(tables)), startJob)
  {
    ghost var listings := ListingsOf(tables);
    var submitted: seq<ImportRequest> := [];
    var ids: seq<string> := [];
    var j := 0;
    while j < |manifests|
      invariant 0 <= j <= |manifests|
      invariant Submit([], Requests(storeId, roleArn, listings[..j]), startJob) == Invocation(submitted, Ok(ids))
    {
      var entries := manifests[j].GetManifest();
      ListingUnique(tables[j], entries);
      var batches := Batched(entries, BatchLimit);
      var started := StartBatches(storeId, roleArn, batches, submitted, startJob);
      SubmitNextListing(storeId, roleArn, listings, j, submitted, ids, startJob, started);
      if started.result.Err? {
        return Invocation(submitted + started.submitted, started.result);
      }
      submitted := submitted + started.submitted;
      ids := ids + started.result.value;
      j := j + 1;
    }
    assert listings[..j] == listings;
    return Invocation(submitted, Ok(ids));
  }

  /** `handler(event, context)`: every submitted request and every outcome is the one
      `Invoke` describes. */
  method Handler(config: Config, records: seq<Record>, list: Lister, startJob: JobStarter) returns (inv: Invocation)
    ensures inv == Invoke(config, records, list, startJob)
  {
    // the store id is computed when the module is loaded
    var storeId := StoreId(config.storeArn);
    if storeId.Err? {
      return Invocation([], Err(storeId.error));
    }
    var manifests, tables := CollectManifests(config, records, list);
    if manifests.Err? {
      return Invocation([], Err(manifests.error));
    }
    inv := StartJobs(storeId.value, config.roleArn, manifests.value, tables, startJob);
  }
}
