/** A deployment on the cloud backup service and the five stages that take it from a
    group id to a downloadable restore job: list the group's clusters, resolve the
    cluster by replica-set name, list its snapshots, create a restore job for the latest
    snapshot, and poll that job until it is ready. Every remote reply is an input. */
module MongoDeployment {
  import opened Wrappers
  import opened Js
  import opened Strings
  import opened Http
  import Selector

  /** One entry of the configuration's `mongoDeployments`. */
  datatype DeploymentConfig = DeploymentConfig(
    username: JsStr,
    apiKey: JsStr,
    groupId: JsStr,
    replicaSetName: JsStr,
    providerInstances: Option<seq<JsStr>>,
    clusterId: JsStr)

  datatype Auth = Auth(user: JsStr, pass: JsStr, sendImmediately: bool)

  /** The options every request starts from. */
  datatype RequestOptions = RequestOptions(uri: string, auth: Auth, contentType: string, json: bool)

  const API_ORIGIN: string := "https://cloud.mongodb.com"

  /** `requestOptionsTemplate` as `init` builds it from the configuration: digest
      credentials that are not sent before the server's challenge, and JSON bodies. */
  function RequestOptionsTemplate(cfg: DeploymentConfig): RequestOptions {
    RequestOptions(API_ORIGIN, Auth(cfg.username, cfg.apiKey, false), "application/json", true)
  }

  // ---------------------------------------------------------------- stage 1

  datatype ClusterSummary = ClusterSummary(clusterName: JsStr, clusterId: JsStr, replicaSetName: JsStr)

  /** `{clusterName: c.clusterName, clusterId: c.id, replicaSetName: c.replicaSetName}`. */
  function Summary(cluster: Record): ClusterSummary {
    ClusterSummary(Get(cluster, "clusterName"), Get(cluster, "id"), Get(cluster, "replicaSetName"))
  }

  /** `_.map(_.get(body, 'results', []), ...)`: one summary per result, in the same order. */
  function ClusterList(results: Option<seq<Record>>): (cs: seq<ClusterSummary>)
    ensures results.None? ==> cs == []
    ensures results.Some? ==> |cs| == |results.value|
    ensures results.Some? ==> forall i :: 0 <= i < |cs| ==> cs[i] == Summary(results.value[i])
  {
    var rs := if results.Some? then results.value else [];
    seq(|rs|, i requires 0 <= i < |rs| => Summary(rs[i]))
  }

  /** `listClustersOfGroup`: a falsy group id fails whatever the server would answer (no
      request is made); otherwise a failed reply fails and a good one gives the summaries. */
  function ListClustersOfGroup(cfg: DeploymentConfig, reply: Reply<Option<seq<Record>>>): (r: Result<seq<ClusterSummary>>)
    ensures !Truthy(cfg.groupId) ==> r == Failure("Invalid groupId: " + Render(cfg.groupId))
    ensures Truthy(cfg.groupId) ==> (r.Success? <==> Classify(reply).Success?)
    ensures Truthy(cfg.groupId) && Classify(reply).Failure? ==> r == Failure(Classify(reply).error)
    ensures r.Success? ==> reply.Response? && r.value == ClusterList(reply.body)
  {
    if !Truthy(cfg.groupId) then Failure("Invalid groupId: " + Render(cfg.groupId))
    else
      var body :- Classify(reply);
      Success(ClusterList(body))
  }

  // ---------------------------------------------------------------- stage 2

  /** `_.find(clusters, {replicaSetName: name})` as an index: the first cluster whose
      replica-set name is strictly equal to `name`, or `|cs|` when there is none. */
  function FirstMatch(cs: seq<ClusterSummary>, name: JsStr): (i: nat)
    ensures i <= |cs|
    ensures i < |cs| ==> cs[i].replicaSetName == name
    ensures forall j :: 0 <= j < i ==> cs[j].replicaSetName != name
  {
    if |cs| == 0 then 0
    else if cs[0].replicaSetName == name then 0
    else 1 + FirstMatch(cs[1..], name)
  }

  /** `'' + clusters` for the cluster lists the guard rejects (`null` or `[]`). */
  function RenderClusters(clusters: Option<seq<ClusterSummary>>): string {
    if clusters.None? then "null" else if |clusters.value| == 0 then "" else "[object Object]"
  }

  /** The decision of `findClusterByReplicaSetName`: the first matching cluster's id. */
  function FindClusterId(name: JsStr, clusters: Option<seq<ClusterSummary>>): (r: Result<string>)
    ensures clusters.None? || |clusters.value| == 0 ==>
              r == Failure("Cannot findClusterByReplicaSetName; clusters is invalid: " + RenderClusters(clusters))
    ensures r.Success? ==> (clusters.Some? &&
              var i := FirstMatch(clusters.value, name);
              i < |clusters.value| && clusters.value[i].clusterId == Str(r.value) && r.value != "")
  {
    if clusters.None? || |clusters.value| == 0 then
      Failure("Cannot findClusterByReplicaSetName; clusters is invalid: " + RenderClusters(clusters))
    else
      var cs := clusters.value;
      var i := FirstMatch(cs, name);
      var clusterId := if i < |cs| then (if cs[i].clusterId.Undefined? then Null else cs[i].clusterId) else Null;
      if !Truthy(clusterId) then Failure("Cannot find cluster with name: " + Render(name))
      else Success(clusterId.s)
  }

  /** With a first match at `i`, the cluster id is that cluster's, or the lookup fails
      when that id is falsy (a later match with a good id is not consulted). */
  lemma FindClusterIdFirstMatch(name: JsStr, cs: seq<ClusterSummary>, i: nat)
    requires i < |cs| && cs[i].replicaSetName == name
    requires forall j :: 0 <= j < i ==> cs[j].replicaSetName != name
    ensures Truthy(cs[i].clusterId) ==> FindClusterId(name, Some(cs)) == Success(cs[i].clusterId.s)
    ensures !Truthy(cs[i].clusterId) ==> FindClusterId(name, Some(cs)) == Failure("Cannot find cluster with name: " + Render(name))
  {
    var k := FirstMatch(cs, name);
    assert k == i;
  }

  /** A non-empty list without a matching cluster fails with the replica-set name. */
  lemma FindClusterIdNoMatch(name: JsStr, cs: seq<ClusterSummary>)
    requires |cs| > 0 && forall j :: 0 <= j < |cs| ==> cs[j].replicaSetName != name
    ensures FindClusterId(name, Some(cs)) == Failure("Cannot find cluster with name: " + Render(name))
  {
    assert FirstMatch(cs, name) == |cs|;
  }

  // ---------------------------------------------------------------- stage 3

  /** `listSnapshotsOfCluster`: a failed reply fails; otherwise `body.results`, or `[]`. */
  function ListSnapshotsOfCluster(reply: Reply<Option<seq<Record>>>): (r: Result<seq<Record>>)
    ensures r.Success? <==> Classify(reply).Success?
    ensures r.Failure? ==> r == Failure(Classify(reply).error)
    ensures r.Success? ==> r.value == (if reply.body.Some? then reply.body.value else [])
  {
    var body :- Classify(reply);
    Success(if body.Some? then body.value else [])
  }

  // ---------------------------------------------------------------- stage 4

  /** The body of the restore-job POST, `{snapshotId: snapshot.id}`. */
  datatype RestoreJobRequest = RestoreJobRequest(snapshotId: JsStr)

  /** The body of the restore-job reply: absent, or an object with an optional `links` array. */
  datatype JobBody = NoBody | JobBody(links: Option<seq<Record>>)

  const SNAPSHOT_DATE_PATH: string := "created.date"

  /** The POST body for the snapshot with the latest `created.date`, or none to send. */
  function RestoreJobPostBody(snapshots: seq<Record>): (b: Option<RestoreJobRequest>)
    ensures b.None? <==>
              forall j :: 0 <= j < |snapshots| ==> !Less(Selector.FLOOR, Selector.FieldOr0(snapshots[j], Some(SNAPSHOT_DATE_PATH)))
  {
    Selector.PickIsHighest(snapshots, Some(SNAPSHOT_DATE_PATH));
    match Selector.Pick(snapshots, Some(SNAPSHOT_DATE_PATH))
    case None => None
    case Some(snapshot) => Some(RestoreJobRequest(Get(snapshot, "id")))
  }

  /** The POST carries the id of a snapshot whose date exceeds '0' and is the latest of
      all (the earliest such on ties); there is nothing to send exactly when no snapshot
      has a date above '0', in particular for no snapshots at all. */
  lemma RestoreJobPostBodyIsLatest(snapshots: seq<Record>)
    ensures RestoreJobPostBody(snapshots).None? <==>
              forall j :: 0 <= j < |snapshots| ==> !Less(Selector.FLOOR, Selector.FieldOr0(snapshots[j], Some(SNAPSHOT_DATE_PATH)))
    ensures RestoreJobPostBody(snapshots).Some? ==>
              exists k :: Selector.IsHighest(snapshots, Some(SNAPSHOT_DATE_PATH), k) && 0 <= k < |snapshots| &&
                RestoreJobPostBody(snapshots).value.snapshotId == Get(snapshots[k], "id")
  {
    Selector.PickIsHighest(snapshots, Some(SNAPSHOT_DATE_PATH));
  }

  /** `createRestoreJobForLatestSnapshot`: without a snapshot to restore it fails before any
      request; otherwise the reply to the POST decides. */
  function CreateRestoreJobForLatestSnapshot(snapshots: seq<Record>, reply: Reply<JobBody>): (r: Result<JobBody>)
    ensures RestoreJobPostBody(snapshots).None? ==> r == Failure("No snapshots to download; snapshots = ")
    ensures RestoreJobPostBody(snapshots).Some? ==> r == Classify(reply)
  {
    if RestoreJobPostBody(snapshots).None? then Failure("No snapshots to download; snapshots = ")
    else Classify(reply)
  }

  /** Of snapshots dated 2020-01-01 (`a`) and 2021-01-01 (`b`), the POST asks for `b`. */
  lemma RestoreJobPostBodyExample()
    ensures RestoreJobPostBody([map["id" := "a", "created.date" := "2020-01-01"],
                                map["id" := "b", "created.date" := "2021-01-01"]])
            == Some(RestoreJobRequest(Str("b")))
  {
    var a := map["id" := "a", "created.date" := "2020-01-01"];
    var b := map["id" := "b", "created.date" := "2021-01-01"];
    var d1, d2 := "2020-01-01", "2021-01-01";
    assert d2[..3] == d1[..3] == "202";
    LessAtFirstDifference(d1, d2, 3);
    assert Selector.Scan([a, b], Some(SNAPSHOT_DATE_PATH), 1) == (d1, 0);
    assert Selector.Scan([a, b], Some(SNAPSHOT_DATE_PATH), 2) == (d2, 1);
  }

  // ---------------------------------------------------------------- stage 5, the result

  /** What the pipeline hands to a provider's upload. */
  datatype DownloadInfo = DownloadInfo(url: JsStr, destinationFile: string)

  /** `'mongo-cloud-backup_' + replicaSetName + '_' + timestamp + '.tar.gz'`. */
  function DestinationFile(replicaSetName: JsStr, timestamp: JsStr): string {
    "mongo-cloud-backup_" + Render(replicaSetName) + "_" + Render(timestamp) + ".tar.gz"
  }

  const NO_RESTORE_JOBS: string := "No restore jobs exist in list: [object Object]"

  /** `getLatestRestoreJobFromList`, given the classified reply of the restore-job listing:
      an incoming error passes through, an empty or missing `results` fails, and otherwise
      the FIRST result (not the latest) gives the url and the destination name. */
  function GetLatestRestoreJobFromList(replicaSetName: JsStr, list: Result<Option<seq<Record>>>): (r: Result<DownloadInfo>)
    ensures list.Failure? ==> r == Failure(list.error)
    ensures list.Success? && (list.value.None? || |list.value.value| == 0) ==> r == Failure(NO_RESTORE_JOBS)
    ensures r.Success? ==> (list.Success? && list.value.Some? && |list.value.value| > 0 &&
              var first := list.value.value[0];
              r.value == DownloadInfo(GetOr(first, "delivery.url", Null),
                                      DestinationFile(replicaSetName, GetOr(first, "timestamp.date", Null))))
  {
    var body :- list;
    if body.None? || |body.value| == 0 then Failure(NO_RESTORE_JOBS)
    else
      var first := body.value[0];
      Success(DownloadInfo(GetOr(first, "delivery.url", Null),
                           DestinationFile(replicaSetName, GetOr(first, "timestamp.date", Null))))
  }

  /** Only the first listed restore job matters: the rest of the list never changes
      the result. */
  lemma LatestRestoreJobIsFirst(replicaSetName: JsStr, first: Record, rest1: seq<Record>, rest2: seq<Record>)
    ensures GetLatestRestoreJobFromList(replicaSetName, Success(Some([first] + rest1)))
         == GetLatestRestoreJobFromList(replicaSetName, Success(Some([first] + rest2)))
  {
  }

  /** The destination name is never empty, begins with the fixed prefix and ends in
      `.tar.gz`, so a provider's destination check always accepts it. */
  lemma DestinationFileShape(replicaSetName: JsStr, timestamp: JsStr)
    ensures var d := DestinationFile(replicaSetName, timestamp);
      && |d| > 0
      && d[..19] == "mongo-cloud-backup_"
      && d[|d| - 7..] == ".tar.gz"
  {
  }

  // ---------------------------------------------------------------- stage 5, the poller

  /** Polls per second for five minutes. */
  const FIVE_MINUTES_IN_SECONDS: nat := 300

  const TIMEOUT_MESSAGE: string := "getDownloadInfoFromRestoreJob timed out after 5 minutes."

  const FINISHED: JsStr := Str("FINISHED")

  /** `_.get(restoreJobs, 'links[0].href', null)`. */
  function RestoreJobUrl(restoreJobs: JobBody): JsStr {
    if restoreJobs.JobBody? && restoreJobs.links.Some? && |restoreJobs.links.value| > 0
    then GetOr(restoreJobs.links.value[0], "href", Null)
    else Null
  }

  /** A callback the status-check handler makes: the FINISHED branch (which lists the
      restore jobs and calls back from there), an error, or the timeout. */
  datatype PollEvent = Finished | Failed(message: string) | TimedOut

  /** The poller's variables and the callbacks it has made so far. */
  datatype PollState = PollState(numChecks: nat, doNotCall: bool, events: seq<PollEvent>)

  /** One landed status reply (its statusName in `body.results[0]`), as the handler in
      `checkIfRestoreJobIsReady` processes it. */
  function PollTick(st: PollState, reply: Reply<JsStr>): PollState {
    match Classify(reply)
    case Failure(e) => st.(events := st.events + [Failed(e)])
    case Success(statusName) =>
      var n := st.numChecks + 1;
      if statusName == FINISHED then
        if !st.doNotCall then PollState(n, true, st.events + [Finished])
        else st.(numChecks := n)
      else if n >= FIVE_MINUTES_IN_SECONDS then st.(numChecks := n, events := st.events + [TimedOut])
      else st.(numChecks := n)
  }

  /** The state after the given replies have landed, in order. The sequence holds every
      reply that lands, including those of requests still in flight when the interval
      was cleared. */
  function Poll(replies: seq<Reply<JsStr>>): PollState
    decreases |replies|
  {
    if replies == [] then PollState(0, false, [])
    else PollTick(Poll(replies[..|replies| - 1]), replies[|replies| - 1])
  }

  lemma PollSnoc(replies: seq<Reply<JsStr>>, reply: Reply<JsStr>)
    ensures Poll(replies + [reply]) == PollTick(Poll(replies), reply)
  {
    assert (replies + [reply])[..|replies|] == replies;
  }

  /** The number of replies that were neither transport errors nor failure statuses. */
  function SuccessfulReplies(replies: seq<Reply<JsStr>>): nat
    decreases |replies|
  {
    if replies == [] then 0
    else SuccessfulReplies(replies[..|replies| - 1]) + (if Classify(replies[|replies| - 1]).Success? then 1 else 0)
  }

  /** `numChecks` counts successful replies only: an error is never counted. */
  lemma {:induction false} PollCountsSuccessfulReplies(replies: seq<Reply<JsStr>>)
    ensures Poll(replies).numChecks == SuccessfulReplies(replies)
    decreases |replies|
  {
    if replies != [] {
      PollCountsSuccessfulReplies(replies[..|replies| - 1]);
    }
  }

  /** The latch: the FINISHED branch runs at most once, and `doNotCall` is set exactly
      when it has run. */
  lemma {:induction false} PollFinishedAtMostOnce(replies: seq<Reply<JsStr>>)
    ensures multiset(Poll(replies).events)[Finished] <= 1
    ensures Poll(replies).doNotCall <==> multiset(Poll(replies).events)[Finished] == 1
    decreases |replies|
  {
    if replies != [] {
      PollFinishedAtMostOnce(replies[..|replies| - 1]);
    }
  }

  /** FINISHED is tested before the timeout: a FINISHED reply reaches the FINISHED branch
      however many checks have been made. */
  lemma PollFinishedBeforeTimeout(st: PollState, statusCode: nat)
    requires statusCode < BAD_REQUEST_STATUS_CODE_FLOOR && !st.doNotCall
    ensures PollTick(st, Response(statusCode, FINISHED)).events == st.events + [Finished]
  {
  }

  /** A reply that is successful and not FINISHED. */
  predicate StillRunning(reply: Reply<JsStr>) {
    reply.Response? && reply.statusCode < BAD_REQUEST_STATUS_CODE_FLOOR && reply.body != FINISHED
  }

  /** If the job never finishes, nothing is reported for 299 checks, and from the 300th
      check on every check reports the timeout. */
  lemma {:induction false} PollTimesOut(replies: seq<Reply<JsStr>>)
    requires forall i :: 0 <= i < |replies| ==> StillRunning(replies[i])
    ensures Poll(replies).numChecks == |replies|
    ensures Poll(replies).events ==
              seq(if |replies| < FIVE_MINUTES_IN_SECONDS then 0 else |replies| - FIVE_MINUTES_IN_SECONDS + 1, _ => TimedOut)
    decreases |replies|
  {
    if replies != [] {
      var init := replies[..|replies| - 1];
      PollTimesOut(init);
      var before := Poll(init).events;
      var after := Poll(replies).events;
      assert StillRunning(replies[|replies| - 1]);
      if |replies| >= FIVE_MINUTES_IN_SECONDS {
        assert after == before + [TimedOut];
      }
    }
  }

  /** The poller the latch evidently means to build: once any callback has been made,
      later replies are ignored. */
  function PollTickGuarded(st: PollState, reply: Reply<JsStr>): PollState {
    if st.doNotCall then st
    else
      var next := PollTick(st, reply);
      next.(doNotCall := |next.events| > |st.events|)
  }

  function PollGuarded(replies: seq<Reply<JsStr>>): PollState
    decreases |replies|
  {
    if replies == [] then PollState(0, false, [])
    else PollTickGuarded(PollGuarded(replies[..|replies| - 1]), replies[|replies| - 1])
  }

  /** The first `min(1, |s|)` elements of `s`. */
  function First<T>(s: seq<T>): (r: seq<T>)
    ensures |r| <= 1
  {
    if s == [] then [] else [s[0]]
  }

  /** The guarded poller calls back at most once, with exactly the first callback the
      code as written makes. */
  lemma {:induction false} PollGuardedIsFirstCallback(replies: seq<Reply<JsStr>>)
    ensures PollGuarded(replies).events == First(Poll(replies).events)
    ensures PollGuarded(replies).doNotCall <==> |Poll(replies).events| > 0
    ensures !PollGuarded(replies).doNotCall ==>
              PollGuarded(replies).numChecks == Poll(replies).numChecks && !Poll(replies).doNotCall
    decreases |replies|
  {
    if replies != [] {
      var init := replies[..|replies| - 1];
      PollGuardedIsFirstCallback(init);
      if |Poll(init).events| > 0 {
        assert Poll(init).events <= Poll(replies).events;
      }
    }
  }

  /** The double callback: a FINISHED reply, then a reply still in flight that fails,
      make two callbacks although the latch is set. */
  lemma PollDoubleCallback()
    ensures Poll([Response(200, FINISHED), TransportError("socket hang up")]).events
            == [Finished, Failed("socket hang up")]
  {
    var replies := [Response(200, FINISHED), TransportError("socket hang up")];
    assert replies[..1] == [Response(200, FINISHED)];
    assert Poll(replies[..1]) == PollState(1, true, [Finished]);
  }

  /** The callback the code makes for one event; `latest` is what the restore-job listing
      gives when the FINISHED branch runs. */
  function CallbackFor(e: PollEvent, latest: Result<DownloadInfo>): Result<DownloadInfo> {
    match e
    case Finished => latest
    case Failed(message) => Failure(message)
    case TimedOut => Failure(TIMEOUT_MESSAGE)
  }

  function Callbacks(events: seq<PollEvent>, latest: Result<DownloadInfo>): (cbs: seq<Result<DownloadInfo>>)
    decreases |events|
    ensures |cbs| == |events|
    ensures forall i :: 0 <= i < |events| ==> cbs[i] == CallbackFor(events[i], latest)
  {
    if events == [] then []
    else Callbacks(events[..|events| - 1], latest) + [CallbackFor(events[|events| - 1], latest)]
  }

  lemma CallbacksSnoc(events: seq<PollEvent>, e: PollEvent, latest: Result<DownloadInfo>)
    ensures Callbacks(events + [e], latest) == Callbacks(events, latest) + [CallbackFor(e, latest)]
  {
    assert (events + [e])[..|events|] == events;
  }

  lemma {:induction false} CallbacksFirst(events: seq<PollEvent>, latest: Result<DownloadInfo>)
    ensures Callbacks(First(events), latest) == First(Callbacks(events, latest))
    decreases |events|
  {
    if |events| > 1 {
      CallbacksFirst(events[..|events| - 1], latest);
      assert events[..|events| - 1][0] == events[0];
    } else if |events| == 1 {
      assert events[..0] == [];
    }
  }

  /** Every callback `getDownloadInfoFromRestoreJobList` makes, in order: one error when
      the job has no status url (before any polling), otherwise one per event. */
  function DownloadInfoCalls(replicaSetName: JsStr, restoreJobs: JobBody, polls: seq<Reply<JsStr>>,
                             restoreJobList: Reply<Option<seq<Record>>>): seq<Result<DownloadInfo>>
  {
    var url := RestoreJobUrl(restoreJobs);
    if !Truthy(url) then [Failure("Invalid restoreJobUrl: " + Render(url) + ", cannot continue")]
    else Callbacks(Poll(polls).events, GetLatestRestoreJobFromList(replicaSetName, Classify(restoreJobList)))
  }

  /** The same with the guarded poller: at most one callback. */
  function DownloadInfoCallsGuarded(replicaSetName: JsStr, restoreJobs: JobBody, polls: seq<Reply<JsStr>>,
                                    restoreJobList: Reply<Option<seq<Record>>>): seq<Result<DownloadInfo>>
  {
    var url := RestoreJobUrl(restoreJobs);
    if !Truthy(url) then [Failure("Invalid restoreJobUrl: " + Render(url) + ", cannot continue")]
    else Callbacks(PollGuarded(polls).events, GetLatestRestoreJobFromList(replicaSetName, Classify(restoreJobList)))
  }

  lemma DownloadInfoCallsGuardedIsFirst(replicaSetName: JsStr, restoreJobs: JobBody, polls: seq<Reply<JsStr>>,
                                        restoreJobList: Reply<Option<seq<Record>>>)
    ensures DownloadInfoCallsGuarded(replicaSetName, restoreJobs, polls, restoreJobList)
         == First(DownloadInfoCalls(replicaSetName, restoreJobs, polls, restoreJobList))
  {
    PollGuardedIsFirstCallback(polls);
    CallbacksFirst(Poll(polls).events, GetLatestRestoreJobFromList(replicaSetName, Classify(restoreJobList)));
  }

  // ---------------------------------------------------------------- the waterfall

  /** The stub replies for one run of the five stages. */
  datatype WaterfallReplies = WaterfallReplies(
    clusters: Reply<Option<seq<Record>>>,
    snapshots: Reply<Option<seq<Record>>>,
    restoreJob: Reply<JobBody>,
    polls: seq<Reply<JsStr>>,
    restoreJobList: Reply<Option<seq<Record>>>)

  datatype WaterfallRun = WaterfallRun(outcome: Completion<DownloadInfo>, config: DeploymentConfig)

  function FirstCall<T>(cbs: seq<Result<T>>): Completion<T> {
    if cbs == [] then Pending else Called(cbs[0])
  }

  /** `getDownloadAndUploadInfo`: the stages in order, each fed the previous one's value,
      the first error ending the run; stage 2 records the cluster id in the config. The
      final callback is the first one stage 5 makes. */
  function Waterfall(cfg: DeploymentConfig, rs: WaterfallReplies): WaterfallRun {
    match ListClustersOfGroup(cfg, rs.clusters)
    case Failure(e) => WaterfallRun(Called(Failure(e)), cfg)
    case Success(clusters) =>
      match FindClusterId(cfg.replicaSetName, Some(clusters))
      case Failure(e) => WaterfallRun(Called(Failure(e)), cfg)
      case Success(clusterId) =>
        var cfg' := cfg.(clusterId := Str(clusterId));
        var outcome :=
          match ListSnapshotsOfCluster(rs.snapshots)
          case Failure(e) => Called(Failure(e))
          case Success(snapshots) =>
            match CreateRestoreJobForLatestSnapshot(snapshots, rs.restoreJob)
            case Failure(e) => Called(Failure(e))
            case Success(job) =>
              FirstCall(DownloadInfoCallsGuarded(cfg'.replicaSetName, job, rs.polls, rs.restoreJobList));
        WaterfallRun(outcome, cfg')
  }

  /** Each stage's failure, once the stages before it have succeeded, is the run's result
      with that stage's own error, whatever the later replies are; the config changes only
      once stage 2 has succeeded, and then only in its cluster id. */
  lemma WaterfallShortCircuits(cfg: DeploymentConfig, rs: WaterfallReplies)
    ensures var clusters := ListClustersOfGroup(cfg, rs.clusters);
            clusters.Failure? ==>
              Waterfall(cfg, rs) == WaterfallRun(Called(Failure(clusters.error)), cfg)
    ensures var clusters := ListClustersOfGroup(cfg, rs.clusters);
            clusters.Success? ==>
              var clusterId := FindClusterId(cfg.replicaSetName, Some(clusters.value));
              clusterId.Failure? ==>
                Waterfall(cfg, rs) == WaterfallRun(Called(Failure(clusterId.error)), cfg)
    ensures var clusters := ListClustersOfGroup(cfg, rs.clusters);
            clusters.Success? ==>
              var clusterId := FindClusterId(cfg.replicaSetName, Some(clusters.value));
              clusterId.Success? ==>
                Waterfall(cfg, rs).config == cfg.(clusterId := Str(clusterId.value))
    ensures Waterfall(cfg, rs).config.(clusterId := cfg.clusterId) == cfg
    ensures var clusters := ListClustersOfGroup(cfg, rs.clusters);
            clusters.Success? && FindClusterId(cfg.replicaSetName, Some(clusters.value)).Success? ==>
              var snapshots := ListSnapshotsOfCluster(rs.snapshots);
              snapshots.Failure? ==>
                Waterfall(cfg, rs).outcome == Called(Failure(snapshots.error))
    ensures var clusters := ListClustersOfGroup(cfg, rs.clusters);
            clusters.Success? && FindClusterId(cfg.replicaSetName, Some(clusters.value)).Success? ==>
              var snapshots := ListSnapshotsOfCluster(rs.snapshots);
              snapshots.Success? ==>
                var job := CreateRestoreJobForLatestSnapshot(snapshots.value, rs.restoreJob);
                job.Failure? ==>
                  Waterfall(cfg, rs).outcome == Called(Failure(job.error))
  {
  }

  /** The replies of a run with one cluster `c1`/`cid1` on replica set `rs0`, one snapshot,
      a job that is ready at the first check, and one listed job delivering `https://x/y`
      at 2021-06-01. */
  function ExampleReplies(): WaterfallReplies {
    WaterfallReplies(
      Response(200, Some([map["clusterName" := "c1", "id" := "cid1", "replicaSetName" := "rs0"]])),
      Response(200, Some([map["id" := "s1", "created.date" := "2021-05-31"]])),
      Response(200, JobBody(Some([map["href" := "https://cloud.mongodb.com/job"]]))),
      [Response(200, FINISHED)],
      Response(200, Some([map["delivery.url" := "https://x/y", "timestamp.date" := "2021-06-01"]])))
  }

  lemma ExampleClusters(cfg: DeploymentConfig)
    requires cfg.groupId == Str("g1") && cfg.replicaSetName == Str("rs0")
    ensures ListClustersOfGroup(cfg, ExampleReplies().clusters) == Success([ClusterSummary(Str("c1"), Str("cid1"), Str("rs0"))])
    ensures FindClusterId(cfg.replicaSetName, Some([ClusterSummary(Str("c1"), Str("cid1"), Str("rs0"))])) == Success("cid1")
  {
    var cluster := map["clusterName" := "c1", "id" := "cid1", "replicaSetName" := "rs0"];
    assert Summary(cluster) == ClusterSummary(Str("c1"), Str("cid1"), Str("rs0"));
    assert ClusterList(Some([cluster])) == [Summary(cluster)];
    FindClusterIdFirstMatch(cfg.replicaSetName, [ClusterSummary(Str("c1"), Str("cid1"), Str("rs0"))], 0);
  }

  lemma ExampleRestoreJob()
    ensures ListSnapshotsOfCluster(ExampleReplies().snapshots) == Success([map["id" := "s1", "created.date" := "2021-05-31"]])
    ensures CreateRestoreJobForLatestSnapshot([map["id" := "s1", "created.date" := "2021-05-31"]], ExampleReplies().restoreJob)
         == Success(JobBody(Some([map["href" := "https://cloud.mongodb.com/job"]])))
  {
    var snapshot := map["id" := "s1", "created.date" := "2021-05-31"];
    LessAtFirstDifference(Selector.FLOOR, "2021-05-31", 0);
    assert Selector.Scan([snapshot], Some(SNAPSHOT_DATE_PATH), 1) == ("2021-05-31", 0);
  }

  lemma ExamplePoll()
    ensures DownloadInfoCallsGuarded(Str("rs0"), JobBody(Some([map["href" := "https://cloud.mongodb.com/job"]])),
                                     ExampleReplies().polls, ExampleReplies().restoreJobList)
         == [Success(DownloadInfo(Str("https://x/y"), "mongo-cloud-backup_rs0_2021-06-01.tar.gz"))]
  {
    var polls := ExampleReplies().polls;
    assert polls[..0] == [];
    assert PollGuarded(polls).events == [Finished];
    assert [Finished][..0] == [];
    var job := map["delivery.url" := "https://x/y", "timestamp.date" := "2021-06-01"];
    assert Classify(ExampleReplies().restoreJobList) == Success(Some([job]));
    assert GetOr(job, "delivery.url", Null) == Str("https://x/y");
    assert GetOr(job, "timestamp.date", Null) == Str("2021-06-01");
    assert DestinationFile(Str("rs0"), Str("2021-06-01")) == "mongo-cloud-backup_rs0_2021-06-01.tar.gz";
    var latest := GetLatestRestoreJobFromList(Str("rs0"), Classify(ExampleReplies().restoreJobList));
    assert latest == Success(DownloadInfo(Str("https://x/y"), "mongo-cloud-backup_rs0_2021-06-01.tar.gz"));
    assert Callbacks([Finished], latest) == [latest];
  }

  /** The example run yields the listed url and `mongo-cloud-backup_rs0_2021-06-01.tar.gz`,
      and records `cid1` as the cluster id. */
  lemma WaterfallEndToEnd(cfg: DeploymentConfig)
    requires cfg.groupId == Str("g1") && cfg.replicaSetName == Str("rs0")
    ensures Waterfall(cfg, ExampleReplies()) == WaterfallRun(
        Called(Success(DownloadInfo(Str("https://x/y"), "mongo-cloud-backup_rs0_2021-06-01.tar.gz"))),
        cfg.(clusterId := Str("cid1")))
  {
    ExampleClusters(cfg);
    ExampleRestoreJob();
    ExamplePoll();
  }

  /** A deployment: the configuration it was initialised with (the one field the stages
      write is `clusterId`) and the request template built from it. */
  class Deployment {
    var config: Option<DeploymentConfig>
    var requestOptionsTemplate: Option<RequestOptions>

    /** `new MongoDeployment()`: no config until `init`. */
    constructor ()
      ensures config == None && requestOptionsTemplate == None
    {
      config := None;
      requestOptionsTemplate := None;
    }

    /** `init`: store the config and build the request template from its credentials. */
    method Init(initConfig: DeploymentConfig)
      modifies this
      ensures config == Some(initConfig)
      ensures requestOptionsTemplate == Some(RequestOptionsTemplate(initConfig))
      ensures requestOptionsTemplate.value.auth == Auth(initConfig.username, initConfig.apiKey, false)
    {
      config := Some(initConfig);
      requestOptionsTemplate := Some(RequestOptionsTemplate(initConfig));
    }

    /** `findClusterByReplicaSetName`: on success the first match's cluster id is written to
      `config.clusterId` and nothing else changes; on failure nothing changes. */
    method FindClusterByReplicaSetName(clusters: Option<seq<ClusterSummary>>) returns (err: Option<string>)
      requires config.Some?
      modifies this
      ensures requestOptionsTemplate == old(requestOptionsTemplate)
      ensures var found := FindClusterId(old(config).value.replicaSetName, clusters);
        if found.Success? then err == None && config == Some(old(config).value.(clusterId := Str(found.value)))
        else err == Some(found.error) && config == old(config)
    {
      var found := FindClusterId(config.value.replicaSetName, clusters);
      if found.Failure? {
        return Some(found.error);
      }
      config := Some(config.value.(clusterId := Str(found.value)));
      err := None;
    }

    /** `getDownloadInfoFromRestoreJobList`: every callback it makes while the given
      status replies land. */
    method GetDownloadInfoFromRestoreJobList(restoreJobs: JobBody, polls: seq<Reply<JsStr>>,
                                             restoreJobList: Reply<Option<seq<Record>>>)
      returns (calls: seq<Result<DownloadInfo>>)
      requires config.Some?
      ensures calls == DownloadInfoCalls(config.value.replicaSetName, restoreJobs, polls, restoreJobList)
    {
      var restoreJobUrl := RestoreJobUrl(restoreJobs);
      if !Truthy(restoreJobUrl) {
        return [Failure("Invalid restoreJobUrl: " + Render(restoreJobUrl) + ", cannot continue")];
      }
      var latest := GetLatestRestoreJobFromList(config.value.replicaSetName, Classify(restoreJobList));
      var numChecks: nat := 0;
      var doNotCall := false;
      ghost var events: seq<PollEvent> := [];
      calls := [];
      var i := 0;
      while i < |polls|
        invariant 0 <= i <= |polls|
        invariant Poll(polls[..i]) == PollState(numChecks, doNotCall, events)
        invariant calls == Callbacks(events, latest)
      {
        assert polls[..i + 1] == polls[..i] + [polls[i]];
        PollSnoc(polls[..i], polls[i]);
        ghost var next := PollTick(PollState(numChecks, doNotCall, events), polls[i]);
        assert Poll(polls[..i + 1]) == next;
        match Classify(polls[i]) {
        case Failure(e) =>
          CallbacksSnoc(events, Failed(e), latest);
          calls := calls + [Failure(e)];
          events := events + [Failed(e)];
        case Success(statusName) =>
          numChecks := numChecks + 1;
          if statusName == FINISHED {
            if !doNotCall {
              doNotCall := true;
              CallbacksSnoc(events, Finished, latest);
              calls := calls + [latest];
              events := events + [Finished];
            }
          } else if numChecks >= FIVE_MINUTES_IN_SECONDS {
            CallbacksSnoc(events, TimedOut, latest);
            calls := calls + [Failure(TIMEOUT_MESSAGE)];
            events := events + [TimedOut];
          }
        }
        assert PollState(numChecks, doNotCall, events) == next;
        i := i + 1;
      }
      assert polls[..|polls|] == polls;
    }

    /** `getDownloadAndUploadInfo`: the waterfall; its result and the new config are those
      of `Waterfall` on the old config. */
    method GetDownloadAndUploadInfo(rs: WaterfallReplies) returns (outcome: Completion<DownloadInfo>)
      requires config.Some?
      modifies this
      ensures config.Some?
      ensures WaterfallRun(outcome, config.value) == Waterfall(old(config).value, rs)
      ensures requestOptionsTemplate == old(requestOptionsTemplate)
    {
      var clusters := ListClustersOfGroup(config.value, rs.clusters);
      if clusters.Failure? {
        return Called(Failure(clusters.error));
      }
      var err := FindClusterByReplicaSetName(Some(clusters.value));
      if err.Some? {
        return Called(Failure(err.value));
      }
      var snapshots := ListSnapshotsOfCluster(rs.snapshots);
      if snapshots.Failure? {
        return Called(Failure(snapshots.error));
      }
      var job := CreateRestoreJobForLatestSnapshot(snapshots.value, rs.restoreJob);
      if job.Failure? {
        return Called(Failure(job.error));
      }
      var calls := GetDownloadInfoFromRestoreJobList(job.value, rs.polls, rs.restoreJobList);
      DownloadInfoCallsGuardedIsFirst(config.value.replicaSetName, job.value, rs.polls, rs.restoreJobList);
      outcome := FirstCall(calls);
    }
  }
}
