/** The earlier generation of the pipeline: one function chain over a single global
    deployment, with no poll timeout and a poll that stops at any status other than
    IN_PROGRESS. */
module RetrieveMongoBackup {
  import opened Wrappers
  import opened Js
  import opened Http
  import Strings
  import Selector
  import MongoDeployment

  /** `config.mongoCloudManager`, read from the global configuration module. */
  datatype CloudManagerConfig = CloudManagerConfig(username: JsStr, apiKey: JsStr, groupId: JsStr, replicaSetName: JsStr)

  /** `getGroupClusters`: a falsy group id fails with no request; otherwise a failed reply
      fails and a good one gives one summary per listed cluster. */
  function GetGroupClusters(groupId: JsStr, reply: Reply<Option<seq<Record>>>): (r: Result<seq<MongoDeployment.ClusterSummary>>)
    ensures !Truthy(groupId) ==> r == Failure("Invalid groupId: " + Render(groupId))
    ensures Truthy(groupId) ==> (r.Success? <==> Classify(reply).Success?)
    ensures Truthy(groupId) && Classify(reply).Failure? ==> r == Failure(Classify(reply).error)
    ensures r.Success? ==> reply.Response? && r.value == MongoDeployment.ClusterList(reply.body)
  {
    if !Truthy(groupId) then Failure("Invalid groupId: " + Render(groupId))
    else
      var body :- Classify(reply);
      Success(MongoDeployment.ClusterList(body))
  }

  /** Both generations list a group's clusters the same way. */
  lemma GetGroupClustersAgrees(cfg: MongoDeployment.DeploymentConfig, reply: Reply<Option<seq<Record>>>)
    ensures GetGroupClusters(cfg.groupId, reply) == MongoDeployment.ListClustersOfGroup(cfg, reply)
  {
  }

  /** `_.get(_.find(clusters, {replicaSetName: name}), 'clusterId', null)`, then the falsy
      check: the first matching cluster's id. Unlike the later generation, an empty list
      is not rejected separately. */
  function ClusterIdFor(clusters: seq<MongoDeployment.ClusterSummary>, name: JsStr): (r: Result<string>)
    ensures r.Success? ==> (var i := MongoDeployment.FirstMatch(clusters, name);
              i < |clusters| && clusters[i].clusterId == Str(r.value) && r.value != "")
    ensures r.Failure? ==> r.error == "Cannot find cluster with name: " + Render(name)
  {
    var i := MongoDeployment.FirstMatch(clusters, name);
    if i < |clusters| && Truthy(clusters[i].clusterId) then Success(clusters[i].clusterId.s)
    else Failure("Cannot find cluster with name: " + Render(name))
  }

  /** On a non-empty list both generations resolve the same cluster id; on an empty one
      the earlier reports a missing cluster, the later an invalid list. */
  lemma ClusterIdForAgrees(clusters: seq<MongoDeployment.ClusterSummary>, name: JsStr)
    ensures |clusters| > 0 ==> ClusterIdFor(clusters, name) == MongoDeployment.FindClusterId(name, Some(clusters))
    ensures |clusters| == 0 ==> ClusterIdFor(clusters, name) == Failure("Cannot find cluster with name: " + Render(name))
    ensures |clusters| == 0 ==>
              MongoDeployment.FindClusterId(name, Some(clusters)) == Failure("Cannot findClusterByReplicaSetName; clusters is invalid: ")
  {
    if |clusters| > 0 {
      var i := MongoDeployment.FirstMatch(clusters, name);
      if i < |clusters| {
        MongoDeployment.FindClusterIdFirstMatch(name, clusters, i);
      } else {
        MongoDeployment.FindClusterIdNoMatch(name, clusters);
      }
    }
  }

  /** `getClusterSnapshots`: a falsy cluster id fails with no request; otherwise the
      reply's `results`, or `[]`. */
  function GetClusterSnapshots(clusterId: JsStr, reply: Reply<Option<seq<Record>>>): (r: Result<seq<Record>>)
    ensures !Truthy(clusterId) ==> r == Failure("Invalid clusterId: " + Render(clusterId))
    ensures Truthy(clusterId) ==> r == MongoDeployment.ListSnapshotsOfCluster(reply)
  {
    if !Truthy(clusterId) then Failure("Invalid clusterId: " + Render(clusterId))
    else
      var body :- Classify(reply);
      Success(if body.Some? then body.value else [])
  }

  /** The body `createRestoreJob` posts, `{snapshotId: snapshot.id}`; reading `id` of a
      `null` snapshot throws, so there is no body. */
  function CreateRestoreJobRequest(snapshot: Option<Record>): (b: Option<MongoDeployment.RestoreJobRequest>)
    ensures b.Some? <==> snapshot.Some?
  {
    match snapshot
    case None => None
    case Some(s) => Some(MongoDeployment.RestoreJobRequest(Get(s, "id")))
  }

  /** `createRestoreJob` for the picked snapshot: without a body to send it throws before
      any request; otherwise the POST reply decides. */
  function CreateRestoreJob(snapshot: Option<Record>, reply: Reply<MongoDeployment.JobBody>): (c: Completion<MongoDeployment.JobBody>)
    ensures c.Threw? <==> snapshot.None?
    ensures !c.Pending?
    ensures c.Called? ==> c.result == Classify(reply)
  {
    if CreateRestoreJobRequest(snapshot).None? then Threw else Called(Classify(reply))
  }

  /** Both generations post the same body for the same snapshots, and both have none to
      send for the same snapshots. */
  lemma CreateRestoreJobBodyAgrees(snapshots: seq<Record>)
    ensures CreateRestoreJobRequest(Selector.Pick(snapshots, Some(MongoDeployment.SNAPSHOT_DATE_PATH)))
         == MongoDeployment.RestoreJobPostBody(snapshots)
  {
  }

  const IN_PROGRESS: JsStr := Str("IN_PROGRESS")

  /** What one status reply does to the poll: a failed reply leaves `statusObj` undefined
      and a body without `results[0]` has nothing to read, and both throw; a status other
      than IN_PROGRESS (FINISHED or anything else) stops the poll. */
  predicate StopsPoll(reply: Reply<Option<JsStr>>) {
    Classify(reply).Failure? || reply.body.None? || reply.body.value != IN_PROGRESS
  }

  /** The index of the first status reply that stops the poll, `|polls|` when none does. */
  function FirstStop(polls: seq<Reply<Option<JsStr>>>): (k: nat)
    ensures k <= |polls|
    ensures k < |polls| ==> StopsPoll(polls[k])
    ensures forall j :: 0 <= j < k ==> !StopsPoll(polls[j])
  {
    if |polls| == 0 then 0
    else if StopsPoll(polls[0]) then 0
    else 1 + FirstStop(polls[1..])
  }

  /** What `getLatestBackup` calls back with. */
  datatype BackupInfo = BackupInfo(downloadUrl: JsStr, timestamp: JsStr)

  /** The restore-job listing once the poll stops: `list.results[0]` is read for logging, so
      a failed listing (`list` undefined) or one without `results` throws; otherwise the
      first job's url and date, `null` when absent. */
  function LatestBackupFromList(reply: Reply<Option<seq<Record>>>): (c: Completion<BackupInfo>)
    ensures c.Called? <==> Classify(reply).Success? && reply.body.Some?
    ensures c.Called? ==> c.result.Success?
    ensures c.Called? && |reply.body.value| == 0 ==> c.result.value == BackupInfo(Null, Null)
    ensures c.Called? && |reply.body.value| > 0 ==>
              c.result.value == BackupInfo(GetOr(reply.body.value[0], "delivery.url", Null), GetOr(reply.body.value[0], "timestamp.date", Null))
  {
    match Classify(reply)
    case Failure(_) => Threw
    case Success(results) =>
      if results.None? then Threw
      else if |results.value| == 0 then Called(Success(BackupInfo(Null, Null)))
      else
        var first := results.value[0];
        Called(Success(BackupInfo(GetOr(first, "delivery.url", Null), GetOr(first, "timestamp.date", Null))))
  }

  /** The poll: the first reply that stops it decides (it throws, or the listing goes on);
      while every reply is IN_PROGRESS nothing is ever called back. */
  function AwaitRestoreJob(polls: seq<Reply<Option<JsStr>>>, restoreJobList: Reply<Option<seq<Record>>>): (c: Completion<BackupInfo>)
    ensures c.Pending? <==> forall j :: 0 <= j < |polls| ==> !StopsPoll(polls[j])
    ensures c.Called? ==> c == LatestBackupFromList(restoreJobList)
    ensures var k := FirstStop(polls);
            k < |polls| && (Classify(polls[k]).Failure? || polls[k].body.None?) ==> c == Threw
    ensures var k := FirstStop(polls);
            k < |polls| && Classify(polls[k]).Success? && polls[k].body.Some? ==> c == LatestBackupFromList(restoreJobList)
  {
    var k := FirstStop(polls);
    if k == |polls| then Pending
    else if Classify(polls[k]).Failure? || polls[k].body.None? then Threw
    else LatestBackupFromList(restoreJobList)
  }

  /** There is no timeout: however many IN_PROGRESS replies land, the poll never ends. */
  lemma {:induction false} NoTimeout(polls: seq<Reply<Option<JsStr>>>, restoreJobList: Reply<Option<seq<Record>>>)
    requires forall j :: 0 <= j < |polls| ==> polls[j] == Response(200, Some(IN_PROGRESS))
    ensures FirstStop(polls) == |polls|
    ensures AwaitRestoreJob(polls, restoreJobList) == Pending
    decreases |polls|
  {
    if |polls| > 0 {
      assert !StopsPoll(polls[0]);
      NoTimeout(polls[1..], restoreJobList);
    }
  }

  /** Any status other than IN_PROGRESS counts as ready: after `n` IN_PROGRESS replies a
      FAILED status still goes on to list the restore jobs. */
  lemma AnyOtherStatusCountsAsReady(prefix: seq<Reply<Option<JsStr>>>, status: JsStr,
                                    rest: seq<Reply<Option<JsStr>>>, restoreJobList: Reply<Option<seq<Record>>>)
    requires forall j :: 0 <= j < |prefix| ==> prefix[j] == Response(200, Some(IN_PROGRESS))
    requires status != IN_PROGRESS
    ensures AwaitRestoreJob(prefix + [Response(200, Some(status))] + rest, restoreJobList) == LatestBackupFromList(restoreJobList)
  {
    var polls := prefix + [Response(200, Some(status))] + rest;
    assert polls[|prefix|] == Response(200, Some(status));
    assert forall j :: 0 <= j < |prefix| ==> polls[j] == prefix[j];
    assert FirstStop(polls) == |prefix|;
  }

  /** The stub replies of one `getLatestBackup` run. */
  datatype LegacyReplies = LegacyReplies(
    clusters: Reply<Option<seq<Record>>>,
    snapshots: Reply<Option<seq<Record>>>,
    restoreJob: Reply<MongoDeployment.JobBody>,
    polls: seq<Reply<Option<JsStr>>>,
    restoreJobList: Reply<Option<seq<Record>>>)

  /** `getLatestBackup`: list the clusters, resolve the cluster id, list its snapshots (none
      is an error), create a restore job for the latest one and poll it. */
  function GetLatestBackup(cfg: CloudManagerConfig, rs: LegacyReplies): (c: Completion<BackupInfo>)
    ensures !Truthy(cfg.groupId) ==> c == Called(Failure("Invalid groupId: " + Render(cfg.groupId)))
    ensures c.Pending? ==> forall j :: 0 <= j < |rs.polls| ==> !StopsPoll(rs.polls[j])
    ensures c.Called? && c.result.Success? ==> c == LatestBackupFromList(rs.restoreJobList)
  {
    match GetGroupClusters(cfg.groupId, rs.clusters)
    case Failure(e) => Called(Failure(e))
    case Success(clusters) =>
      match ClusterIdFor(clusters, cfg.replicaSetName)
      case Failure(e) => Called(Failure(e))
      case Success(clusterId) =>
        match GetClusterSnapshots(Str(clusterId), rs.snapshots)
        case Failure(e) => Called(Failure(e))
        case Success(snapshots) =>
          if |snapshots| == 0 then Called(Failure("No snapshots available: "))
          else
            match CreateRestoreJob(Selector.Pick(snapshots, Some(MongoDeployment.SNAPSHOT_DATE_PATH)), rs.restoreJob)
            case Called(Success(job)) =>
              if job.NoBody? then Called(Failure("Unable to create restoreJob"))
              else AwaitRestoreJob(rs.polls, rs.restoreJobList)
            case Called(Failure(e)) => Called(Failure(e))
            case _ => Threw
  }

  /** Snapshots that exist but none of which has a date above '0' make the earlier
      generation throw, where the later one reports that there is nothing to download. */
  lemma UndatedSnapshotsThrow(cfg: CloudManagerConfig, rs: LegacyReplies, clusterId: string)
    requires GetGroupClusters(cfg.groupId, rs.clusters).Success?
    requires ClusterIdFor(GetGroupClusters(cfg.groupId, rs.clusters).value, cfg.replicaSetName) == Success(clusterId)
    requires Classify(rs.snapshots).Success? && rs.snapshots.body.Some? && |rs.snapshots.body.value| > 0
    requires forall j :: 0 <= j < |rs.snapshots.body.value| ==>
               !Strings.Less(Selector.FLOOR, Selector.FieldOr0(rs.snapshots.body.value[j], Some(MongoDeployment.SNAPSHOT_DATE_PATH)))
    ensures GetLatestBackup(cfg, rs) == Threw
    ensures MongoDeployment.CreateRestoreJobForLatestSnapshot(rs.snapshots.body.value, rs.restoreJob)
         == Failure("No snapshots to download; snapshots = ")
  {
    Selector.PickIsHighest(rs.snapshots.body.value, Some(MongoDeployment.SNAPSHOT_DATE_PATH));
  }

  /** A snapshot listing that fails, or lists nothing, ends the run with an error. */
  lemma NoSnapshotsFails(cfg: CloudManagerConfig, rs: LegacyReplies, clusterId: string)
    requires GetGroupClusters(cfg.groupId, rs.clusters).Success?
    requires ClusterIdFor(GetGroupClusters(cfg.groupId, rs.clusters).value, cfg.replicaSetName) == Success(clusterId)
    ensures Classify(rs.snapshots).Failure? ==> GetLatestBackup(cfg, rs) == Called(Failure(Classify(rs.snapshots).error))
    ensures Classify(rs.snapshots).Success? && (rs.snapshots.body.None? || |rs.snapshots.body.value| == 0) ==>
              GetLatestBackup(cfg, rs) == Called(Failure("No snapshots available: "))
  {
  }
  /** A cluster list with no usable match for the replica set ends the run with the
      missing-cluster error, before any snapshot is listed. */
  lemma MissingClusterFails(cfg: CloudManagerConfig, rs: LegacyReplies)
    requires GetGroupClusters(cfg.groupId, rs.clusters).Success?
    requires var clusters := GetGroupClusters(cfg.groupId, rs.clusters).value;
      var i := MongoDeployment.FirstMatch(clusters, cfg.replicaSetName);
      i == |clusters| || !Truthy(clusters[i].clusterId)
    ensures GetLatestBackup(cfg, rs) == Called(Failure("Cannot find cluster with name: " + Render(cfg.replicaSetName)))
  {
  }

  /** A restore-job reply without a body ends the run with 'Unable to create restoreJob';
      every other good reply goes on to the poll. */
  lemma MissingRestoreJobFails(cfg: CloudManagerConfig, rs: LegacyReplies, clusterId: string, snapshots: seq<Record>)
    requires GetGroupClusters(cfg.groupId, rs.clusters).Success?
    requires ClusterIdFor(GetGroupClusters(cfg.groupId, rs.clusters).value, cfg.replicaSetName) == Success(clusterId)
    requires GetClusterSnapshots(Str(clusterId), rs.snapshots) == Success(snapshots) && |snapshots| > 0
    requires Selector.Pick(snapshots, Some(MongoDeployment.SNAPSHOT_DATE_PATH)).Some?
    requires Classify(rs.restoreJob).Success?
    ensures rs.restoreJob.body.NoBody? ==> GetLatestBackup(cfg, rs) == Called(Failure("Unable to create restoreJob"))
    ensures rs.restoreJob.body.JobBody? ==> GetLatestBackup(cfg, rs) == AwaitRestoreJob(rs.polls, rs.restoreJobList)
  {
  }
}
