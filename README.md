# mongo-cloud-to-storage, modelled in Dafny

mongo-cloud-to-storage copies the latest backup of a MongoDB Cloud Manager deployment into
cloud storage. For each configured deployment it:

- lists the group's clusters;
- finds the cluster running the configured replica set;
- lists that cluster's snapshots;
- creates a restore job for the snapshot with the latest `created.date`;
- polls the job until it is `FINISHED`;
- hands the download url and a destination file name to each storage provider attached to
  the deployment. The only provider is AWS S3.

This project models the decision logic around those remote calls. Every HTTP reply is an
input value (`Http.Reply`: a transport error, or a status code with a parsed body). Every
callback becomes a returned value: a `Result`, a `Completion` or a list of signals.

| file | models |
|---|---|
| `wrappers.dfy` | `Option`, and `Result` with `:-` |
| `js.dfy` | the JavaScript semantics the code relies on: `undefined`/`null`/string values, truthiness, `'' + v` rendering, `_.get` with a default on a record keyed by full dotted path |
| `strings.dfy` | JavaScript string `>` as a lexicographic order with its order lemmas, `indexOf`, `replace` of the first occurrence, decimal rendering of a status code |
| `http.dfy` | the `err` / `statusCode >= 300` classification of each reply |
| `selector.dfy` | `pickObjWithHighestFieldValue`, both copies |
| `mongo_deployment.dfy` | `MongoDeployment`: `init`, the five waterfall stages, the restore-job poller, the waterfall itself |
| `retrieve_mongo_backup.dfy` | the earlier pipeline generation: `getGroupClusters`, `getClusterSnapshots`, `createRestoreJob`, the poll without a timeout, `getLatestBackup` |
| `aws_s3.dfy` | `AwsS3Provider.init` bucket-name normalisation, and `upload` argument checks with its option records |
| `stream_backups.dfy` | `initializeDeploymentsAndProviders` and the module-level `mongoDeployments` / `providerInstances` registry |

Where the code holds state, the model keeps the source's form:

- `MongoDeployment.Deployment`, `AwsS3.AwsS3Provider` and `StreamBackups.Registry` are
  classes whose methods update fields.
- The selector loop and the poller loop are `while` loops, each proved equal to a
  specification function.
- The registry's two `_.forOwn` / `_.each` loops are `while` loops. Their contracts state
  the whole new state: the appended deployments and the provider table. They also state
  every callback made, in order.

## Model

| member | source | states |
|---|---|---|
| Selector.Scan | lib/mongo-deployment.js:305-313 | after `n` records the running maximum is '0' with index -1, or it is the value of the record at the kept index, which lies below `n` |
| Selector.ScanInvariant | lib/mongo-deployment.js:307-313 | the loop invariant: with no index kept, no value seen exceeds '0'; otherwise the running maximum exceeds '0', no value seen exceeds it, and every earlier value (before the kept index) is strictly below it |
| Selector.HighestIndexIsHighest | lib/mongo-deployment.js:303-315 | the final index satisfies `IsHighest`: -1 iff no value exceeds '0'; otherwise its value exceeds '0', is at least every value, and is strictly above every earlier value |
| Selector.HighestIsUnique | lib/mongo-deployment.js:309 | at most one index satisfies `IsHighest`, so the selection is fully determined by it |
| Selector.PickIsHighest | lib/mongo-deployment.js:314 | the result is `null` exactly when no value exceeds '0'; otherwise it is the record at an index that satisfies `IsHighest` |
| Selector.PickPrefersEarliest | lib/mongo-deployment.js:309 | the strict `>` means a later record with a value equal to an earlier one is never picked |
| Selector.PickSingleton | test/test-mongo-deployment.js:330-343 | a one-record array whose value exceeds '0' gives back that record |
| Selector.PickNothing | lib/mongo-deployment.js:305-314 | `null` for an empty array and when no record has the field the path reads; a `null` path reads the field `null`, as lodash casts it |
| Selector.NullPathExample | test/test-mongo-deployment.js:312-317 | with a `null` path, `[{someKey: 'someValue'}]` gives `null`, while a record whose `null` field is '5' is picked |
| Selector.PickNestedExample | test/test-mongo-deployment.js:344-351 | of the values '1', '3', '2' at `key.key`, the '3' record is picked |
| Selector.PickObjWithHighestFieldValue | lib/mongo-deployment.js:303-315 | the loop returns exactly the `Pick` specification's record; the copy in lib/retrieve-mongo-backup.js (lines 201-214) is the same loop, and its unused `safeVal` plays no part |
| Strings.IndexOf | stream-backups.js:108 | the result is -1 exactly when the pattern occurs nowhere; otherwise it is the first position where it occurs |
| Strings.IndexOfZeroIsPrefix | providers/aws-s3.js:45 | `indexOf(pat) === 0` holds exactly when the string starts with `pat` |
| Http.Classify | lib/mongo-deployment.js:73-75 | success iff there is no transport error and the status is below 300; a transport error gives its message; a bad status gives 'Bad statusCode: ' and the code |
| MongoDeployment.Deployment.Init | lib/mongo-deployment.js:29-47 | stores the config and builds the template: origin `https://cloud.mongodb.com`, digest credentials from username/apiKey with `sendImmediately` false, JSON content type, `json` true |
| MongoDeployment.ClusterList | lib/mongo-deployment.js:77-84 | one summary per result, in order, mapping `id` to `clusterId`; missing `results` give `[]` |
| MongoDeployment.ListClustersOfGroup | lib/mongo-deployment.js:58-86 | a falsy groupId fails with 'Invalid groupId: ' whatever the reply; otherwise it succeeds iff the reply is good, gives the reply's error when it is not, and on success gives the summaries of the body |
| MongoDeployment.FirstMatch | lib/mongo-deployment.js:105-112 | `_.find`: the first cluster whose replicaSetName is strictly equal to the name, none earlier |
| MongoDeployment.FindClusterId | lib/mongo-deployment.js:99-116 | a null or empty list fails with 'clusters is invalid'; success gives the truthy clusterId of the first match |
| MongoDeployment.FindClusterIdFirstMatch | lib/mongo-deployment.js:105-117 | with the first match at `i`, the result is its clusterId when truthy, else 'Cannot find cluster with name: ' (a later match is not consulted) |
| MongoDeployment.FindClusterIdNoMatch | lib/mongo-deployment.js:114-116 | a non-empty list with no match fails with 'Cannot find cluster with name: ' and the replica-set name |
| MongoDeployment.Deployment.FindClusterByReplicaSetName | lib/mongo-deployment.js:97-119 | on success writes the first match's id to `config.clusterId` and changes nothing else; on failure returns the error and changes nothing |
| MongoDeployment.ListSnapshotsOfCluster | lib/mongo-deployment.js:143-149 | succeeds iff the reply is good; the failure is the reply's error; success gives `body.results` or `[]` |
| MongoDeployment.RestoreJobPostBody | lib/mongo-deployment.js:163-180 | the later generation posts `{snapshotId}` of the snapshot picked on `created.date`; there is no body exactly when no snapshot has a date above '0' (which record is picked: `RestoreJobPostBodyIsLatest`) |
| MongoDeployment.RestoreJobPostBodyIsLatest | lib/mongo-deployment.js:163-180 | nothing is posted exactly when no snapshot's `created.date` exceeds '0'; otherwise the body's snapshotId is the id of a snapshot satisfying `IsHighest` on `created.date` |
| MongoDeployment.CreateRestoreJobForLatestSnapshot | lib/mongo-deployment.js:161-188 | without a selected snapshot it fails with 'No snapshots to download; snapshots = ' before any request; otherwise the POST reply decides |
| MongoDeployment.RestoreJobPostBodyExample | test/test-mongo-deployment.js:180-185 | of snapshots dated 2020-01-01 and 2021-01-01, the later one's id is posted |
| MongoDeployment.GetLatestRestoreJobFromList | lib/mongo-deployment.js:279-289 | an incoming error passes through; missing or empty `results` fail with 'No restore jobs exist in list: '; success takes the url from `results[0].delivery.url` and the name `mongo-cloud-backup_<rs>_<date>.tar.gz` from `results[0].timestamp.date` |
| MongoDeployment.LatestRestoreJobIsFirst | lib/mongo-deployment.js:285-287 | only the first listed restore job matters: the rest of the list never changes the result |
| MongoDeployment.DestinationFileShape | lib/mongo-deployment.js:287 | the destination name is non-empty, starts with `mongo-cloud-backup_` and ends with `.tar.gz` |
| MongoDeployment.PollCountsSuccessfulReplies | lib/mongo-deployment.js:222-226 | `numChecks` equals the number of good replies: an error is never counted |
| MongoDeployment.PollFinishedAtMostOnce | lib/mongo-deployment.js:227-234 | the FINISHED branch runs at most once, and `doNotCall` is set exactly when it has run |
| MongoDeployment.PollFinishedBeforeTimeout | lib/mongo-deployment.js:227-236 | a good FINISHED reply reaches the FINISHED branch whatever `numChecks` is, as long as the latch is open |
| MongoDeployment.PollTimesOut | lib/mongo-deployment.js:236-238 | while the job is never FINISHED, the first 299 checks report nothing and every check from the 300th on reports the timeout |
| MongoDeployment.PollGuardedIsFirstCallback | lib/mongo-deployment.js:205-239 | the corrected poller makes at most one callback, exactly the first one of the poller as written, and counts the same checks until then |
| MongoDeployment.PollDoubleCallback | lib/mongo-deployment.js:222-233 | as written, a FINISHED reply followed by a failing in-flight reply makes two callbacks |
| MongoDeployment.Callbacks | lib/mongo-deployment.js:224-238 | one callback per poll event, in order: the listing's result for FINISHED, the error for a failed reply, the timeout message for a timeout |
| MongoDeployment.CallbacksFirst | lib/mongo-deployment.js:224-238 | mapping events to callbacks commutes with taking the first one |
| MongoDeployment.DownloadInfoCallsGuardedIsFirst | lib/mongo-deployment.js:198-242 | the corrected stage-5 callbacks are the first callback of the stage as written: 'Invalid restoreJobUrl' alone when `links[0].href` is missing, otherwise the first poll outcome |
| MongoDeployment.Deployment.GetDownloadInfoFromRestoreJobList | lib/mongo-deployment.js:198-242 | the loop over landed replies, with `numChecks` and `doNotCall`, makes exactly the callbacks `DownloadInfoCalls` lists, in order, with the FINISHED branch's callback at the FINISHED reply (see "Left out") |
| MongoDeployment.WaterfallShortCircuits | lib/mongo-deployment.js:322-338 | once the stages before it have succeeded, a stage's failure ends the run with that stage's own error, whatever the later replies (listing clusters, finding the cluster id, listing snapshots, creating the restore job); the config changes only after stage 2 succeeds, and then only in clusterId |
| MongoDeployment.WaterfallEndToEnd | lib/mongo-deployment.js:322-338 | a complete run gives the listed url and `mongo-cloud-backup_rs0_2021-06-01.tar.gz`, and records the cluster id |
| MongoDeployment.Deployment.GetDownloadAndUploadInfo | lib/mongo-deployment.js:322-338 | the method's outcome and new config are those of `Waterfall` on the old config; the request template is unchanged |
| RetrieveMongoBackup.GetGroupClusters | lib/retrieve-mongo-backup.js:163-193 | a falsy groupId fails with 'Invalid groupId: ' before any request; a bad reply fails with its error; success maps the results to summaries |
| RetrieveMongoBackup.GetGroupClustersAgrees | lib/retrieve-mongo-backup.js:163-193 | the earlier generation lists clusters exactly like `listClustersOfGroup` |
| RetrieveMongoBackup.ClusterIdFor | lib/retrieve-mongo-backup.js:38-41 | success gives the truthy clusterId of the first match; any failure is 'Cannot find cluster with name: ' |
| RetrieveMongoBackup.ClusterIdForAgrees | lib/retrieve-mongo-backup.js:38-41 | on a non-empty list both generations resolve the same cluster id; on an empty one the earlier reports a missing cluster and the later an invalid list |
| RetrieveMongoBackup.GetClusterSnapshots | lib/retrieve-mongo-backup.js:136-157 | a falsy clusterId fails with 'Invalid clusterId: ' before any request; otherwise it is the reply's `results`, or `[]` |
| RetrieveMongoBackup.CreateRestoreJobBodyAgrees | lib/retrieve-mongo-backup.js:113-130 | the earlier generation's body `{snapshotId: snapshot.id}` for the picked snapshot equals the later generation's POST body for every snapshot list, including the lists with nothing to send |
| RetrieveMongoBackup.CreateRestoreJobRequest | lib/retrieve-mongo-backup.js:120-122 | the earlier generation's body `{snapshotId: snapshot.id}` exists exactly when a snapshot was picked; reading `id` of `null` has none |
| RetrieveMongoBackup.CreateRestoreJob | lib/retrieve-mongo-backup.js:113-130 | `createRestoreJob` throws exactly when no snapshot was picked, before any request; otherwise it calls back with the classified POST reply, never leaving the run pending |
| RetrieveMongoBackup.FirstStop | lib/retrieve-mongo-backup.js:57-60 | the first status reply that stops the poll, none earlier |
| RetrieveMongoBackup.LatestBackupFromList | lib/retrieve-mongo-backup.js:61-69 | a failed listing or one without `results` throws; otherwise it reports the first job's `delivery.url` and `timestamp.date`, both null for an empty list |
| RetrieveMongoBackup.NoTimeout | lib/retrieve-mongo-backup.js:56-72 | while every status is IN_PROGRESS the poll never stops and nothing is called back, however many replies land |
| RetrieveMongoBackup.AnyOtherStatusCountsAsReady | lib/retrieve-mongo-backup.js:59 | the first status other than IN_PROGRESS, FAILED included, stops the poll and goes on to list the restore jobs |
| RetrieveMongoBackup.AwaitRestoreJob | lib/retrieve-mongo-backup.js:55-73 | the poll stays pending exactly when no status reply stops it (there is no timeout, see `NoTimeout`); when the first stopping reply is an error or lacks `results[0]`, reading `statusObj.results[0]` throws; otherwise it calls back with the restore-job listing's result (a FAILED status counts as ready, see `AnyOtherStatusCountsAsReady`) |
| RetrieveMongoBackup.MissingClusterFails | lib/retrieve-mongo-backup.js:38-41 | no usable match fails the run with 'Cannot find cluster with name: ' and the replica-set name |
| RetrieveMongoBackup.NoSnapshotsFails | lib/retrieve-mongo-backup.js:44-46 | a failed snapshot listing fails with its error; an empty or missing list fails with 'No snapshots available: ' |
| RetrieveMongoBackup.UndatedSnapshotsThrow | lib/retrieve-mongo-backup.js:49-50 | snapshots without a date above '0' make `snapshot.id` throw, where the later generation reports 'No snapshots to download' |
| RetrieveMongoBackup.MissingRestoreJobFails | lib/retrieve-mongo-backup.js:51-53 | a restore-job reply without a body fails the run with 'Unable to create restoreJob'; a job with a body goes on to the poll |
| RetrieveMongoBackup.GetLatestBackup | lib/retrieve-mongo-backup.js:30-77 | `getLatestBackup`: a falsy groupId fails with 'Invalid groupId: '; the run hangs only while no status reply stops the poll, and it succeeds only with the listing's first job; the stage failures are `MissingClusterFails`, `NoSnapshotsFails`, `UndatedSnapshotsThrow` and `MissingRestoreJobFails` |
| AwsS3.NormaliseWithoutScheme | providers/aws-s3.js:29 | a bucket name with no `s3://` is left unchanged |
| AwsS3.NormaliseStripsLeadingScheme | providers/aws-s3.js:29 | `s3://name` becomes `name` |
| AwsS3.NormaliseRemovesFirstOccurrence | providers/aws-s3.js:29 | only the first `s3://` is removed: putting it back at that position restores the name, and it occurs nowhere earlier |
| AwsS3.NormaliseIdempotentIffNoSchemeLeft | providers/aws-s3.js:29 | normalising a second time changes nothing exactly when the first pass left no `s3://` behind |
| AwsS3.NormaliseSingleSchemeNotIdempotent | providers/aws-s3.js:29 | one `s3://` is not enough: `s3:/s3:///` normalises to `s3://`, and normalising that gives the empty name |
| AwsS3.AwsS3Provider.Init | providers/aws-s3.js:26-31 | stores the config with its bucket name normalised; a bucket name that is not a string throws, after the config is stored |
| AwsS3.DownloadUrlGuardIsPrefix | providers/aws-s3.js:45 | the url guard accepts exactly the strings that begin with `http` |
| AwsS3.Upload | providers/aws-s3.js:41-63 | 'Invalid downloadUrl' unless the url is a string starting with `http`, checked first; then 'Invalid destinationFile' unless the destination is a non-empty string; success iff both hold, with Bucket, Key, `application/x-gzip`, `public-read` and the stream options |
| AwsS3.UploadUsesNormalisedBucket | providers/aws-s3.js:41-63 | on the config `init` leaves behind (line 29), a successful plan's Bucket is the normalised bucket name and its credentials are the configured ones |
| AwsS3.StreamOptionsAreFixed | providers/aws-s3.js:58-63 | 10 concurrent parts, waitTime 10000, 5 retries and 10485760-byte parts |
| StreamBackups.ValidateConfig | stream-backups.js:83-88 | it succeeds iff the config is an object with `providers` and at least one deployment; the error is 'Invalid config object: ' and the config's rendering |
| StreamBackups.KeptDeployments | stream-backups.js:95 | every kept deployment has non-empty `providerInstances` and comes from the configuration |
| StreamBackups.StringEntries | stream-backups.js:96 | a name is kept exactly when it occurs as a string entry |
| StreamBackups.KeptDeploymentsConcat | stream-backups.js:93-100 | deployments are kept in key order: the kept deployments of `a + b` are those of `a` followed by those of `b` |
| StreamBackups.KeptDeploymentsSingle | stream-backups.js:94 | one deployment is kept exactly when its `providerInstances` is present and non-empty |
| StreamBackups.StringEntriesConcat | stream-backups.js:96 | `_.filter` keeps order: the entries of `a + b` are those of `a` followed by those of `b` |
| StreamBackups.StringEntriesSingle | stream-backups.js:96 | one entry is kept exactly when it is a string |
| StreamBackups.ProviderNamesMembers | stream-backups.js:93-100 | a name is collected exactly when some kept deployment lists it as a string |
| StreamBackups.UniqSpec | stream-backups.js:102 | `_.uniq` keeps exactly the same names, each once, ordered by first occurrence |
| StreamBackups.ResolveProviderInstance | stream-backups.js:108-123 | no `.` gives 'is invalid'; an empty prefix gives 'Invalid providerName: '; no entry under `providers` gives 'does not exist'; it resolves exactly when the first `.` is after position 0 and `providers` has an entry for the name, and then the provider name is the prefix before that `.`, with the config found |
| StreamBackups.Registry.AddDeployments | stream-backups.js:93-100 | appends one deployment, initialised with its config, per configured deployment with providers, in key order; returns the concatenated string names |
| StreamBackups.Registry.StoreProviderInstance | stream-backups.js:126 | a new instance with the normalised config is stored under the name; if `init` throws, nothing is stored |
| StreamBackups.StopIndex | stream-backups.js:105-128 | the position of the first name whose resolution throws, none before it |
| StreamBackups.ResolvedConfigsSpec | stream-backups.js:126 | over distinct names, the table holds exactly the names whose resolution leaves an instance, each with its normalised config |
| StreamBackups.TableBeforeFirstThrow | stream-backups.js:105-128 | over distinct names, the table left by the loop holds exactly the names before the first throw that resolve, each with its normalised config |
| StreamBackups.ProviderTableSpec | stream-backups.js:102-128 | each resolvable distinct name before the first throw gets exactly one entry, holding its normalised config, and no other name gets one |
| StreamBackups.Registry.AddProviderInstance | stream-backups.js:106-127 | one name: an unresolvable name gives its error callback and changes nothing; a provider other than `aws` or a bucket name `init` rejects throws and changes nothing; otherwise an instance holding the normalised config is stored under the name |
| StreamBackups.Registry.AddProviderInstances | stream-backups.js:105-128 | (`AddedAll`) it threw exactly when some name throws; one error callback per unresolvable name before the first throw, and the throw if there is one; each resolvable name before it gets an instance holding its normalised config, and other entries stay |
| StreamBackups.Registry.InitializeDeploymentsAndProviders | stream-backups.js:65-130 | the callbacks made are `InitSignals`; a bad shape changes nothing; otherwise the deployments are appended and the provider table is `ProviderTable` |
| StreamBackups.DoubleCallbackExample | stream-backups.js:108-129 | as written, a name without a dot gives its error callback and then the final `cb()` as well |
| StreamBackups.CorrectedSignalIsFirst | stream-backups.js:65-130 | the corrected single outcome (first error, throw or success) is the first callback the code as written makes |

## Left out

- HTTP itself is left out: the `request` library, digest authentication, headers, the request URIs built for each call and the `_.merge` of per-call options. Replies are inputs and only the option template is modelled.
- `setInterval` timing is not modelled. The later generation's poller is a loop over the status replies that land, in arrival order, which includes replies to requests still in flight after `clearInterval`.
- MongoDeployment.Deployment.GetDownloadInfoFromRestoreJobList: the FINISHED branch's callback is placed at the FINISHED reply. In the code it is made only when the reply to the restore-job listing lands, so a status reply that lands between the two calls back first; the model assumes the listing's reply lands before any later status reply. The corrected poller is not affected, since it ignores every reply after FINISHED.
- RetrieveMongoBackup.AwaitRestoreJob: the earlier generation's poll is modelled by its first stop only. The code has no latch there, so a second status other than IN_PROGRESS that was in flight lists the restore jobs and calls back again; those later callbacks are not modelled.
- The scheduling by `async.waterfall` and `async.eachSeries` is not modelled, and neither is what the library does with a task that calls back twice. The waterfall passes on a stage's first callback.
- The `streaming-s3` upload is left out: its events, part splitting, retries and concurrency live in that library. `AwsS3.Upload` stops where the library takes over.
- Loading the configuration with `require` is file I/O and is left out, and so is the default configuration file used for a falsy `config`. The configuration is a parameter. A falsy config is therefore not modelled.
- `debug` and `console.log` output are left out.
- Selector values that are not strings are left out; the model assumes string timestamps. Selector input that is not an array is left out too. String order compares characters, not UTF-16 code units of astral characters.
- In the newer poller, a good reply whose body has no `results[0]` is not modelled; there it throws a TypeError. The model reads the status from the reply directly.
- RetrieveMongoBackup.GetLatestBackup: a listing whose `results` is `null` is treated as one without `results`. The code's `_.get` returns that `null`, so it would call back 'No snapshots available: null' where the model gives 'No snapshots available: '.
- MongoDeployment.CreateRestoreJobForLatestSnapshot: the code passes `snapshots` to the callback as a second argument after the 'No snapshots to download; snapshots = ' message, and `async.waterfall` passes it on to the final callback; the model keeps only the message.
- MongoDeployment.GetLatestRestoreJobFromList: the 'No restore jobs exist in list: ' message always renders the listing as `[object Object]`. A listing without a body would render as `undefined`.
- Two kinds of aliasing are left out: `AwsS3Provider.init` normalising the bucket name inside the shared configuration object, and deployments sharing their config object with the configuration.
- The order in which `_.forOwn` visits integer-like keys is not modelled. Deployments are a sequence in key order.
- `new providerList[providerName]()` is modelled as the single provider `aws`. Any other provider name throws.
- StreamBackups.Registry.AddDeployments: the contracts do not state that the new deployment and provider objects are fresh.
- `streamBackups`, `backupDeployments`, `backupDeployment` and `backupDeploymentToProvider` in stream-backups.js are not part of this model, and neither is the entry script stream-backup.js. They only drive the modelled parts through `async`.
- `retrieveLatestBackup`, `listRestoreJobs` and `getDownloadUrlFromRestoreJob` in lib/retrieve-mongo-backup.js are not modelled as functions of their own. Their replies are inputs to `GetLatestBackup`, and only the status each one classifies is modelled.

## Findings

| source | as written | input that shows it | evidently intended | confidence | as-written member | corrected member |
|---|---|---|---|---|---|---|
| lib/mongo-deployment.js:222-238 | the `doNotCall` latch guards only the FINISHED branch, so an error or timeout reply that lands after FINISHED calls the callback again | status replies `200 FINISHED`, then a transport error `socket hang up` from a request in flight | one callback per run: once any callback is made, later replies are ignored | not executed | MongoDeployment.PollDoubleCallback | MongoDeployment.PollGuardedIsFirstCallback |
| stream-backups.js:108-129 | `return cb(...)` inside `_.each` ends only that iteration, so the loop goes on and `cb()` at line 129 runs after an error callback | one deployment whose only provider instance is `nodot`, with empty `providers` | stop at the first error with a single callback | not executed | StreamBackups.DoubleCallbackExample | StreamBackups.CorrectedSignalIsFirst |
