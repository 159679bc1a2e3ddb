# Event-driven importer for HealthOmics sequence stores: the import dispatcher

This project models the Lambda handler that starts read-set import jobs. It receives
S3 "object created" notifications. For every record whose key names the marker file
(`MARKER_FILENAME`), it lists the objects in the folder the marker sits in. It then
builds a manifest of the paired-end FASTQ files found there, keyed by the file path
without its `.R1`/`.R2` read number. Finally it starts one read-set import job per chunk
of at most 100 manifest entries and collects the job ids.

Modules, in dependency order:

- `Results`: `Option`, `Result`, `Outcome` and the errors the handler can raise.
- `Strings`: Python's `str.split` for one separator, with its first two fields.
- `PosixPath`: `posixpath.basename`, `dirname` and `join`.
- `ReadTag`: `re.sub` with the pattern `(.+)\.R[12](\..+)`, written as string
  functions rather than a regular-expression engine.
- `Batching`: `itertools.batched`.
- `Manifest`:
  - `get_subject_sample_ids`.
  - The manifest dictionary as a value (`Table`, `Insert`, `Listing`).
  - The `FASTQManifest` class, whose `AddSource` updates its fields in place and is
    proved against `Insert`.
- `Importer`:
  - The extension filter and `as_s3uri`.
  - `get_import_manifest`, as a specification function (`Build`) and a looping method
    (`GetImportManifest`) proved against it.
- `Dispatcher`:
  - The store-id split and the marker filter.
  - The records loop and the batching loop.
  - The whole invocation, as a specification function (`Invoke`) and a method
    (`Handler`) proved equal to it.

The S3 listing is a function parameter `Lister` from bucket and prefix to the keys,
in order. The import API is a function parameter `JobStarter`. It takes the requests
already sent in the same invocation and the next request, and answers `Started(id)` or
`Rejected(reason)`. Because the history is an argument, one request sent twice can start
two jobs with different ids, and a call can be throttled because of the calls before it
(`RepeatedRequestStartsTwoJobs`). The settings read from the environment are a `Config`
record.

Every lemma carries `{:induction false}` and writes out any induction it needs. In
Dafny 4.11 the automatic induction hypothesis for a sequence parameter asserts call
facts about sequences of any element type. In a lemma about `BuildAll`, those facts
together with the constant list of pairs `OmicsFileTypes` let the verifier derive
`false`, so no proof here relies on automatic induction.

An invocation is described by the requests it sent, in order, and by its outcome. The
outcome is either the list of job ids or the error that ended the invocation.

The code behaves as follows, and so does the model:

- **Listing prefix.** The prefix is `path.dirname` of the marker key
  (`MarkerRecordAnyKey`). It has no trailing '/' unless the folder part is only slashes:
  `run42/progress.AWS` lists under `run42` and `/progress.AWS` under `/`
  (`MarkerRecordScope`, `MarkerRecordUnderSlashes`). S3 matches a prefix as a string, so
  listing under `run42` also returns keys of sibling folders such as `run420/`. That is S3's behaviour; the model leaves the listing to
  `Lister` and does not represent it.
- **Marker match.** A record is acted on when the key's base name equals the marker name
  exactly. A suffix match is not enough.
- **No idempotency guard.** A repeated marker record builds its manifest again and starts
  its jobs again.
- **No retry.** An error from the import API ends the invocation (`SubmitErrMeaning`).
- **No per-record isolation.** The first error, while building a manifest or starting a
  job, ends the whole invocation. After a build error the later records are not
  processed (`BuildAllFirstError`, `BuildAllStopsAtError`). A job error comes after every
  record was processed and every manifest built; what it skips is the remaining chunks
  (`SubmitStopsAtError`).
- **Build before start.** Every manifest is built before any job starts (`Invoke`).
- **Job sources.** A job's sources are up to 100 manifest entries, not a bucket and
  prefix.
- **Store id.** The store id is the second '/'-separated field of the store ARN. It is
  computed once, when the module loads.

## Model

| member | source | states |
|---|---|---|
| Strings.Split | lib/lambda/aho_start_storage_import/handler.py:82 | `str.split` on one character: at least one field, no field holds the separator, joining the fields with it gives the input back, and there are two or more fields exactly when the separator occurs |
| Strings.SplitFirstTwo | lib/lambda/aho_start_storage_import/handler.py:82 | the first two fields of a split are the text before the first separator and the text between the first and the second (or the end) |
| Strings.SplitOfLeading | lib/lambda/aho_start_storage_import/handler.py:32 | splitting `a + sep + b + rest`, where `rest` is empty or starts with `sep`, gives `a` and `b` as the first two fields |
| PosixPath.Basename | lib/lambda/aho_start_storage_import/handler.py:78 | the base name is the longest suffix without '/', preceded by '/' unless it is the whole path |
| PosixPath.Dirname | lib/lambda/aho_start_storage_import/handler.py:120 | the directory is the head up to the last '/', without trailing slashes unless the head is only slashes |
| PosixPath.RejoinIdentity | lib/lambda/aho_start_storage_import/handler.py:51 | `join(dirname(p), basename(p)) == p` exactly when the base name is not preceded by two or more slashes that follow some other character; a head of slashes only, as in `//x`, comes back unchanged |
| PosixPath.MarkerKeyParts | lib/lambda/aho_start_storage_import/handler.py:117-120 | the key `dir/name` (or `name` at the root) has base name `name` and directory `dir` |
| PosixPath.SlashesKeyParts | lib/lambda/aho_start_storage_import/handler.py:117-120 | a key `slashes + name` whose folder part is only slashes has base name `name` and directory those slashes, trailing '/' included |
| PosixPath.BasenameUnder | lib/lambda/aho_start_storage_import/handler.py:78 | a name without '/' under any directory is the base name of the path |
| PosixPath.RejoinAppend | lib/lambda/aho_start_storage_import/handler.py:51 | appending text without '/' to a path commutes with rejoining its directory and base name |
| PosixPath.RejoinNoNewline | lib/lambda/aho_start_storage_import/handler.py:51 | rejoining a non-empty path without newlines gives a non-empty path without newlines |
| ReadTag.LastTag | lib/lambda/aho_start_storage_import/handler.py:34 | the greedy first group of the pattern ends at the last `.R1.`/`.R2.` that has text before and after it; none exists when it returns nothing |
| ReadTag.Substitute | lib/lambda/aho_start_storage_import/handler.py:52 | `re.sub` never lengthens the text |
| ReadTag.SubstituteLines | lib/lambda/aho_start_storage_import/handler.py:52 | `re.sub` rewrites the lines on either side of a newline independently: substituting `a + "\n" + b` gives the substitution of `a`, a newline, and the substitution of `b` |
| ReadTag.StripTagOfReadName | lib/lambda/aho_start_storage_import/handler.py:52 | for `q.R1.ext` or `q.R2.ext` on one line, with no tag inside `.ext`, `\1\2` gives `q.ext` and `\1` gives `q` |
| ReadTag.NoTagUnchanged | lib/lambda/aho_start_storage_import/handler.py:52 | a line without a read tag comes through unchanged |
| ReadTag.SubstituteKeepsNoSlash | lib/lambda/aho_start_storage_import/handler.py:79-82 | the substitution applied to a name without '/' yields a name without '/' |
| Batching.Batched | lib/lambda/aho_start_storage_import/handler.py:127 | the chunks are non-empty, hold at most n items, all but the last hold exactly n, their concatenation is the input, and there are ChunkCount of them |
| Batching.ChunkCountIsCeiling | lib/lambda/aho_start_storage_import/handler.py:127 | the number of chunks is ceil(len / n) |
| Batching.FlattenAppend | lib/lambda/aho_start_storage_import/handler.py:127 | laying chunks end to end distributes over concatenation |
| Manifest.PairKeyOfRead | lib/lambda/aho_start_storage_import/handler.py:51-52 | the key of `p.R1.ext` (or `.R2.`) is the rejoined `p` followed by `.ext` |
| Manifest.PairKeyOfMates | lib/lambda/aho_start_storage_import/handler.py:51-52 | two files that differ only in `.R1` versus `.R2` before the extension have the same key |
| Manifest.ReadNameOfBasename | lib/lambda/aho_start_storage_import/handler.py:78-82 | taking the base name a second time changes nothing |
| Manifest.UnpackIds | lib/lambda/aho_start_storage_import/handler.py:82 | unpacking succeeds exactly when the name contains '_'; the subject and sample are its first two fields; otherwise the error names the string |
| Manifest.SubjectSampleIds | lib/lambda/aho_start_storage_import/handler.py:74-83 | the subject is the read name before its first '_' and the sample the text up to the next '_' or the end; a read name without '_' raises |
| Manifest.ReadNameOfReadFile | lib/lambda/aho_start_storage_import/handler.py:74-79 | the read name of `dir/q.R1.ext` is `q` |
| Manifest.UnpackConventional | lib/lambda/aho_start_storage_import/handler.py:82 | `subject_sample[_…]` unpacks to that subject and sample |
| Manifest.SampleIdsOfConventionalName | lib/lambda/aho_start_storage_import/handler.py:74-83 | for `dir/flowcell_sample[_…].R1.ext` the subject is the flow cell and the sample the sample |
| Manifest.EntryCount | lib/lambda/aho_start_storage_import/handler.py:69-71 | a well-formed manifest has as many entries as keys in its insertion order |
| Manifest.Insert | lib/lambda/aho_start_storage_import/handler.py:44-64 | add_source fails exactly when the key is new and the ids cannot be parsed, with the error `get_subject_sample_ids` raises; on success the result is well formed, contains the key, keeps the old insertion order as a prefix and leaves every other entry unchanged |
| Manifest.InsertNewKey | lib/lambda/aho_start_storage_import/handler.py:54-62 | a new key is appended to the order, the count grows by one, and the entry holds the file as source1, no source2, type FASTQ, the parsed ids and the key as name |
| Manifest.InsertKnownKey | lib/lambda/aho_start_storage_import/handler.py:63-64 | a present key keeps the order and the count; in its entry only source2 changes, to the new file |
| Manifest.MatesShareEntry | lib/lambda/aho_start_storage_import/handler.py:51-64 | two mates added in turn give one new entry with the first as source1 and the second as source2 |
| Manifest.Listing | lib/lambda/aho_start_storage_import/handler.py:66-67 | the listing has one entry per key, in insertion order, each of type FASTQ and named after its key |
| Manifest.FastqManifest.constructor | lib/lambda/aho_start_storage_import/handler.py:41-42 | a new manifest is empty and well formed |
| Manifest.FastqManifest.Count | lib/lambda/aho_start_storage_import/handler.py:69-71 | count is the number of keys in insertion order |
| Manifest.FastqManifest.AddSource | lib/lambda/aho_start_storage_import/handler.py:44-64 | the update in place is Insert on the old contents; on failure nothing changes; the manifest stays well formed |
| Manifest.FastqManifest.GetManifest | lib/lambda/aho_start_storage_import/handler.py:66-71 | exactly count entries, in first-insertion order of their keys, each of type FASTQ and named after its key |
| Importer.AsS3Uri | lib/lambda/aho_start_storage_import/handler.py:104-105 | the URI is `s3://bucket/key` for a key without a leading '/' and a bucket without a trailing one; a key with a leading '/' is returned as is |
| Importer.FastqKeys | lib/lambda/aho_start_storage_import/handler.py:93-95 | the keys kept are exactly the listed keys with a FASTQ extension |
| Importer.FastqKeysOfOne | lib/lambda/aho_start_storage_import/handler.py:95 | a single key is kept exactly when it has a FASTQ extension |
| Importer.FastqKeysAppend | lib/lambda/aho_start_storage_import/handler.py:94-95 | the filter keeps listing order: the FASTQ keys of two listings in a row are those of the first followed by those of the second |
| Importer.BuildFromSucceeds | lib/lambda/aho_start_storage_import/handler.py:94-99 | a listing whose FASTQ files all have a '_' in their read names always builds |
| Importer.BuildFromAppend | lib/lambda/aho_start_storage_import/handler.py:94-99 | building from two listings in a row is building from the first and then from its result over the second; an error in the first ends the build |
| Importer.StepFails | lib/lambda/aho_start_storage_import/handler.py:94-99 | one pass raises on a FASTQ file whose pair key is new and whose read name yields no ids, with that error |
| Importer.BuildFromFirstError | lib/lambda/aho_start_storage_import/handler.py:94-99 | a failed build reports the error of a FASTQ file whose pair key is not in the manifest built from the files before it and whose read name yields no ids |
| Importer.BuildFromFailsAt | lib/lambda/aho_start_storage_import/handler.py:94-99 | conversely, such a file makes the build fail with its error |
| Importer.BuildIgnoresOtherKeys | lib/lambda/aho_start_storage_import/handler.py:93-99 | keys without a FASTQ extension leave the manifest as it is: building from the whole listing equals building from its FASTQ keys |
| Importer.Step | lib/lambda/aho_start_storage_import/handler.py:94-99 | one pass of the loop keeps the table well formed, keeps its order as a prefix and keeps every key |
| Importer.BuildKeepsEarlierKeys | lib/lambda/aho_start_storage_import/handler.py:94-99 | building on from a manifest keeps its keys and their order as a prefix |
| Importer.BuildCoversFastqKeys | lib/lambda/aho_start_storage_import/handler.py:94-99 | a successful build has an entry for the key of every FASTQ object listed |
| Importer.BuildAddsOnlyListed | lib/lambda/aho_start_storage_import/handler.py:94-99 | a successful build adds no key but those of listed FASTQ objects |
| Importer.BuildKeys | lib/lambda/aho_start_storage_import/handler.py:86-101 | the keys of a folder's manifest are exactly the pair keys of its FASTQ objects |
| Importer.AddListed | lib/lambda/aho_start_storage_import/handler.py:95-99 | a FASTQ key is added as a URI and any other key is skipped, as Step states; when adding fails the manifest is unchanged |
| Importer.GetImportManifest | lib/lambda/aho_start_storage_import/handler.py:86-101 | the loop returns a fresh, well-formed manifest equal to Build of the listing, or the error Build reports |
| Dispatcher.StoreId | lib/lambda/aho_start_storage_import/handler.py:31-32 | an id exists exactly when the ARN is set and contains '/'; it holds no '/'; an unset ARN and an ARN without '/' give their own errors |
| Dispatcher.StoreIdOfArn | lib/lambda/aho_start_storage_import/handler.py:32 | the id of `resource/id[/…]` is `id` |
| Dispatcher.ScopesOf | lib/lambda/aho_start_storage_import/handler.py:114-120 | a record contributes at most one folder |
| Dispatcher.MarkerRecordScope | lib/lambda/aho_start_storage_import/handler.py:116-120 | a marker record at `dir/marker` lists its bucket under `dir` (no trailing '/'), and at the root under "" |
| Dispatcher.MarkerRecordUnderSlashes | lib/lambda/aho_start_storage_import/handler.py:116-120 | a marker record whose folder part is only slashes (`/marker`) lists its bucket under those slashes (`/`) |
| Dispatcher.MarkerRecordAnyKey | lib/lambda/aho_start_storage_import/handler.py:116-120 | any record whose base name is the marker contributes one folder: its bucket under `dirname` of its key, for every key shape (`a//progress.AWS` lists under `a`) |
| Dispatcher.OtherRecordIgnored | lib/lambda/aho_start_storage_import/handler.py:117 | a record whose base name is not the marker, or any record when no marker is set, contributes nothing |
| Dispatcher.MarkerScopesAppend | lib/lambda/aho_start_storage_import/handler.py:112-120 | records contribute their folders independently and in record order |
| Dispatcher.BuildAll | lib/lambda/aho_start_storage_import/handler.py:112-120 | on success there is one manifest per marker folder |
| Dispatcher.BuildAllParts | lib/lambda/aho_start_storage_import/handler.py:112-120 | the built manifests are each folder's manifest, in record order |
| Dispatcher.BuildAllOfParts | lib/lambda/aho_start_storage_import/handler.py:112-120 | when every folder's manifest is built, the records loop succeeds with them in order |
| Dispatcher.BuildAllFirstError | lib/lambda/aho_start_storage_import/handler.py:112-120 | a failed records loop reports the error of the first folder whose manifest failed, all before it having succeeded |
| Dispatcher.BuildAllStopsAtError | lib/lambda/aho_start_storage_import/handler.py:112-120 | after a failure, later records change nothing |
| Dispatcher.CollectManifests | lib/lambda/aho_start_storage_import/handler.py:110-120 | the records loop returns manifests whose contents are BuildAll of the marker folders, or the error BuildAll reports |
| Dispatcher.ChunkRequests | lib/lambda/aho_start_storage_import/handler.py:128-134 | one request per chunk, carrying the store id, the role and that chunk |
| Dispatcher.ListingsOf | lib/lambda/aho_start_storage_import/handler.py:124-127 | one listing per manifest, each that manifest's `get_manifest()` and as long as it |
| Dispatcher.Requests | lib/lambda/aho_start_storage_import/handler.py:124-134 | every request carries the store id, the role and between 1 and 100 sources |
| Dispatcher.RequestCount | lib/lambda/aho_start_storage_import/handler.py:124-128 | the number of requests is the sum over the manifests of ceil(count / 100) |
| Dispatcher.RequestsCoverManifests | lib/lambda/aho_start_storage_import/handler.py:124-134 | laid end to end, the requests' sources are the manifests' entries laid end to end: each entry is sent exactly once, in order |
| Dispatcher.RequestsAppend | lib/lambda/aho_start_storage_import/handler.py:124-134 | the requests of consecutive groups of manifests follow one another |
| Dispatcher.Submit | lib/lambda/aho_start_storage_import/handler.py:128-135 | what was sent is a prefix of the requests; on success all were sent and there is one id per request |
| Dispatcher.SubmitOkMeaning | lib/lambda/aho_start_storage_import/handler.py:130-135 | on success the id at each position is the one the call for that request returned, given the requests sent before it |
| Dispatcher.SubmitErrMeaning | lib/lambda/aho_start_storage_import/handler.py:130-135 | on failure every request sent but the last started a job, and the last raised the reported error |
| Dispatcher.SubmitAllStarted | lib/lambda/aho_start_storage_import/handler.py:128-135 | when every call starts a job, all requests are sent and the ids come back in order |
| Dispatcher.SubmitStopsAtRejection | lib/lambda/aho_start_storage_import/handler.py:128-135 | after the first call that raises nothing more is sent, and the invocation ends with that error |
| Dispatcher.SubmitAppend | lib/lambda/aho_start_storage_import/handler.py:124-135 | after calls that all succeed, the remaining requests behave as if sent on their own after those earlier requests |
| Dispatcher.RepeatedRequestStartsTwoJobs | lib/lambda/aho_start_storage_import/handler.py:130-135 | for any API that starts a job for a request and another for its repeat, sending the request twice starts both and returns both ids in order |
| Dispatcher.SubmitStopsAtError | lib/lambda/aho_start_storage_import/handler.py:124-135 | once a call has raised, later requests change nothing |
| Dispatcher.Invoke | lib/lambda/aho_start_storage_import/handler.py:108-135 | nothing is sent unless the store id resolves and every manifest is built; on success there is one id per request sent |
| Dispatcher.InvokeRequests | lib/lambda/aho_start_storage_import/handler.py:130-134 | every request sent goes to the store named in the ARN with the configured role and carries 1 to 100 sources |
| Dispatcher.InvokeJobCount | lib/lambda/aho_start_storage_import/handler.py:124-135 | a run without error returns the sum over the manifests of ceil(count / 100) job ids |
| Dispatcher.StartBatches | lib/lambda/aho_start_storage_import/handler.py:128-137 | the inner loop sends one request per chunk and stops at the first error, exactly as Submit of the chunk requests |
| Dispatcher.SubmitNextListing | lib/lambda/aho_start_storage_import/handler.py:124-135 | one manifest's chunks either all start and the run goes on, or one is refused and that ends the run over all manifests |
| Dispatcher.StartJobs | lib/lambda/aho_start_storage_import/handler.py:124-137 | the outer loop sends exactly the requests of the manifests' chunks in order, with the outcome Submit gives |
| Dispatcher.Handler | lib/lambda/aho_start_storage_import/handler.py:108-137 | the handler's requests and outcome are those Invoke describes |

## Left out

- The S3 listing (`boto3.resource('s3')`, `bucket.objects.filter`) is the function parameter `Lister`. Paging, eventual consistency and listing errors are not modelled.
- `Lister` is any function of bucket and prefix: it is not constrained to return keys that start with the prefix, nor keys of sibling folders (`run420/` for the prefix `run42`) that S3's string match returns.
- `Lister` is a function of bucket and prefix alone. A folder listed twice in one invocation gives the same keys both times, and objects written between the two listings are not represented.
- The import call (`omics.start_read_set_import_job`) is the function parameter `JobStarter`. Every exception it can raise is one `Rejected(reason)`, and the response's other fields are not modelled.
- `JobStarter` sees the requests sent earlier in the same invocation only. Calls from other invocations and the time between calls do not affect its reply.
- `sleep(0.2)` between calls, the `print` logging and the JSON response envelope returned at the end are left out. They are timing and output only; the model returns the job ids.
- The environment is read when the module loads. It is the `Config` parameter here:
  - An unset or slash-free `TARGET_SEQUENCE_STORE_ARN` makes loading the module fail. It is modelled as an invocation that sends nothing and ends with that error.
  - An unset `MARKER_FILENAME` is None, so no key matches it.
  - An unset `IMPORT_JOB_ROLE_ARN` is passed through as None.
- Records without the `s3`/`bucket`/`name` or `object`/`key` fields raise `KeyError`. The model takes records already parsed into bucket and key.
- Keys are used as they arrive in the notification. S3 URL-encodes keys in event records and the code does not decode them, so neither does the model.
- An idempotency guard, retry with backoff and per-record error isolation are not modelled, because the code implements none of them.
- `bin/omics-storage-importer.ts` and `lib/omics-storage-importer-stack.ts` are not part of this model: they declare infrastructure and compute nothing.
- The extension pattern is built from `OMICS_FILE_TYPES` when it runs (handler.py:93). The model takes the two extensions from a constant, with `$` also matching before a final newline.
