/** The registry `initializeDeploymentsAndProviders` fills: it checks the configuration's
    shape, creates a deployment for each configured deployment that names providers,
    collects the distinct provider-instance names, and creates one provider instance per
    name it can resolve. Every callback it makes is recorded, in order. */
module StreamBackups {
  import opened Wrappers
  import opened Js
  import opened Strings
  import MongoDeployment
  import AwsS3

  /** The configuration as the registry reads it: a value that is not an object (with its
      `'' + config` rendering), or an object whose `providers` are keyed by the full dotted
      instance name and whose `mongoDeployments` are listed in key order. A falsy value
      never gets here: it is replaced by the default configuration file. */
  datatype Config =
    | NotAnObject(text: string)
    | ConfigObject(providers: Option<map<string, AwsS3.ProviderConfig>>,
                   mongoDeployments: Option<seq<MongoDeployment.DeploymentConfig>>)

  /** The shape check of lines 83-87: an object with `providers` and at least one deployment. */
  function ValidateConfig(config: Config): (r: Result<()>)
    ensures r.Success? <==> config.ConfigObject? && config.providers.Some? &&
                            config.mongoDeployments.Some? && |config.mongoDeployments.value| > 0
    ensures r.Failure? ==> r.error == "Invalid config object: " +
                                      (if config.NotAnObject? then config.text else "[object Object]")
  {
    match config
    case NotAnObject(text) => Failure("Invalid config object: " + text)
    case ConfigObject(providers, deployments) =>
      if providers.None? || deployments.None? || |deployments.value| == 0
      then Failure("Invalid config object: [object Object]")
      else Success(())
  }

  /** A deployment is kept when its `providerInstances` is present and non-empty. */
  predicate HasProviders(d: MongoDeployment.DeploymentConfig) {
    d.providerInstances.Some? && |d.providerInstances.value| > 0
  }

  /** The kept deployments, in key order. */
  function KeptDeployments(ds: seq<MongoDeployment.DeploymentConfig>): (kept: seq<MongoDeployment.DeploymentConfig>)
    decreases |ds|
    ensures |kept| <= |ds|
    ensures forall i :: 0 <= i < |kept| ==> HasProviders(kept[i]) && kept[i] in ds
  {
    if ds == [] then []
    else KeptDeployments(ds[..|ds| - 1]) + (if HasProviders(ds[|ds| - 1]) then [ds[|ds| - 1]] else [])
  }

  /** `_.filter(providerInstances, _.isString)`. */
  function StringEntries(xs: seq<JsStr>): (names: seq<string>)
    decreases |xs|
    ensures forall n :: n in names <==> Str(n) in xs
  {
    if xs == [] then []
    else StringEntries(xs[..|xs| - 1]) + (if xs[|xs| - 1].Str? then [xs[|xs| - 1].s] else [])
  }

  /** `_.forOwn` keeps deployments in key order, one at a time: the kept deployments of
      two runs of deployments are those of the first run followed by those of the second. */
  lemma {:induction false} KeptDeploymentsConcat(a: seq<MongoDeployment.DeploymentConfig>, b: seq<MongoDeployment.DeploymentConfig>)
    ensures KeptDeployments(a + b) == KeptDeployments(a) + KeptDeployments(b)
    decreases |b|
  {
    if b == [] {
      assert a + b == a;
    } else {
      var init := b[..|b| - 1];
      KeptDeploymentsConcat(a, init);
      assert (a + b)[..|a + b| - 1] == a + init;
      assert (a + b)[|a + b| - 1] == b[|b| - 1];
    }
  }

  /** One deployment is kept exactly when it has providers. */
  lemma KeptDeploymentsSingle(d: MongoDeployment.DeploymentConfig)
    ensures KeptDeployments([d]) == if HasProviders(d) then [d] else []
  {
    assert [d][..0] == [];
  }

  /** `_.filter` keeps string entries in order: the entries of two runs are those of the
      first run followed by those of the second. */
  lemma {:induction false} StringEntriesConcat(a: seq<JsStr>, b: seq<JsStr>)
    ensures StringEntries(a + b) == StringEntries(a) + StringEntries(b)
    decreases |b|
  {
    if b == [] {
      assert a + b == a;
    } else {
      var init := b[..|b| - 1];
      StringEntriesConcat(a, init);
      assert (a + b)[..|a + b| - 1] == a + init;
      assert (a + b)[|a + b| - 1] == b[|b| - 1];
    }
  }

  /** One entry is kept exactly when it is a string. */
  lemma StringEntriesSingle(x: JsStr)
    ensures StringEntries([x]) == if x.Str? then [x.s] else []
  {
    assert [x][..0] == [];
  }

  /** `masterProviderList` before deduplication: the string entries of every kept
      deployment, deployment after deployment. */
  function ProviderNames(ds: seq<MongoDeployment.DeploymentConfig>): seq<string>
    decreases |ds|
  {
    if ds == [] then []
    else
      var d := ds[|ds| - 1];
      ProviderNames(ds[..|ds| - 1]) + (if HasProviders(d) then StringEntries(d.providerInstances.value) else [])
  }

  /** A name is listed exactly when some kept deployment names it as a string. */
  lemma {:induction false} ProviderNamesMembers(ds: seq<MongoDeployment.DeploymentConfig>, n: string)
    ensures n in ProviderNames(ds) <==>
              exists i :: 0 <= i < |ds| && HasProviders(ds[i]) && Str(n) in ds[i].providerInstances.value
    decreases |ds|
  {
    if ds != [] {
      var init := ds[..|ds| - 1];
      ProviderNamesMembers(init, n);
      if n in ProviderNames(init) {
        var i :| 0 <= i < |init| && HasProviders(init[i]) && Str(n) in init[i].providerInstances.value;
        assert ds[i] == init[i];
      }
      if exists i :: 0 <= i < |ds| && HasProviders(ds[i]) && Str(n) in ds[i].providerInstances.value {
        var i :| 0 <= i < |ds| && HasProviders(ds[i]) && Str(n) in ds[i].providerInstances.value;
        if i < |init| {
          assert init[i] == ds[i];
        }
      }
    }
  }

  /** `_.uniq`: the first occurrence of each name, in order. */
  function Uniq(xs: seq<string>): seq<string>
    decreases |xs|
  {
    if xs == [] then []
    else
      var u := Uniq(xs[..|xs| - 1]);
      if xs[|xs| - 1] in u then u else u + [xs[|xs| - 1]]
  }

  /** The position of the first occurrence of `x` in `xs`. */
  function FirstIndex(xs: seq<string>, x: string): (i: nat)
    requires x in xs
    ensures i < |xs| && xs[i] == x
    ensures forall j :: 0 <= j < i ==> xs[j] != x
  {
    if xs[0] == x then 0 else 1 + FirstIndex(xs[1..], x)
  }

  lemma FirstIndexOfPrefix(xs: seq<string>, x: string, n: nat)
    requires n <= |xs| && x in xs[..n]
    ensures x in xs && FirstIndex(xs, x) == FirstIndex(xs[..n], x)
  {
    var i := FirstIndex(xs[..n], x);
    assert xs[i] == x;
    assert forall j :: 0 <= j < i ==> xs[j] == xs[..n][j];
  }

  /** `_.uniq` keeps each name once, keeps every name, and orders them by first occurrence. */
  lemma {:induction false} UniqSpec(xs: seq<string>)
    ensures forall x :: x in Uniq(xs) <==> x in xs
    ensures forall i, j :: 0 <= i < j < |Uniq(xs)| ==> Uniq(xs)[i] != Uniq(xs)[j]
    ensures forall i, j :: 0 <= i < j < |Uniq(xs)| ==> FirstIndex(xs, Uniq(xs)[i]) < FirstIndex(xs, Uniq(xs)[j])
    decreases |xs|
  {
    if xs != [] {
      var init := xs[..|xs| - 1];
      var x := xs[|xs| - 1];
      UniqSpec(init);
      var u := Uniq(init);
      forall y | y in u
        ensures y in xs && FirstIndex(xs, y) == FirstIndex(init, y) < |init|
      {
        FirstIndexOfPrefix(xs, y, |init|);
      }
      assert forall y :: y in xs <==> y in init || y == x;
      if x !in u {
        var r := u + [x];
        assert Uniq(xs) == r;
        assert FirstIndex(xs, x) == |init|;
        forall i, j | 0 <= i < j < |r|
          ensures r[i] != r[j] && FirstIndex(xs, r[i]) < FirstIndex(xs, r[j])
        {
          assert r[i] == u[i] && u[i] in u;
          if j < |u| {
            assert r[j] == u[j];
          }
        }
      }
    }
  }

  /** How one provider-instance name resolves (lines 108-123): no dot, an empty prefix, or
      no entry under `providers` are errors; otherwise the provider name before the first
      dot and the configuration found. */
  datatype Resolution = InvalidName(message: string) | Instance(providerName: string, cfg: AwsS3.ProviderConfig)

  function ResolveProviderInstance(name: string, providers: map<string, AwsS3.ProviderConfig>): (r: Resolution)
    ensures IndexOf(name, ".") == -1 ==>
              r == InvalidName("Error: providerInstanceName of " + name + " is invalid.")
    ensures IndexOf(name, ".") == 0 ==> r == InvalidName("Invalid providerName: ")
    ensures IndexOf(name, ".") > 0 && name !in providers ==>
              r == InvalidName("providerConfig for providerInstanceName of: " + name + " does not exist.")
    ensures r.Instance? <==> IndexOf(name, ".") > 0 && name in providers
    ensures r.Instance? ==> r.providerName == name[..IndexOf(name, ".")]
    ensures r.Instance? ==> (name in providers && r.cfg == providers[name] &&
              0 < |r.providerName| < |name| && name[..|r.providerName|] == r.providerName &&
              name[|r.providerName|] == '.' && '.' !in r.providerName)
  {
    var dotIndex := IndexOf(name, ".");
    if dotIndex == -1 then InvalidName("Error: providerInstanceName of " + name + " is invalid.")
    else
      var providerName := name[..dotIndex];
      // the prefix is a string, so only an empty one is rejected
      if dotIndex == 0 then InvalidName("Invalid providerName: ")
      else if name !in providers then
        InvalidName("providerConfig for providerInstanceName of: " + name + " does not exist.")
      else
        assert forall k :: 0 <= k < dotIndex ==> !OccursAt(name, ".", k) && name[k..k + 1] == [providerName[k]];
        Instance(providerName, providers[name])
  }

  /** `providerList`: the one provider there is. */
  const AWS: string := "aws"

  /** `new providerList[providerName]().init(providerConfig)` throws: the provider name is
      not in the list, or the bucket name is not a string. */
  predicate Throws(r: Resolution) {
    r.Instance? && (r.providerName != AWS || !r.cfg.s3BucketName.Str?)
  }

  /** The resolution of each name, in order. */
  function Resolutions(names: seq<string>, providers: map<string, AwsS3.ProviderConfig>): (rs: seq<Resolution>)
    decreases |names|
    ensures |rs| == |names|
  {
    if names == [] then []
    else Resolutions(names[..|names| - 1], providers) + [ResolveProviderInstance(names[|names| - 1], providers)]
  }

  lemma {:induction false} ResolutionAt(names: seq<string>, providers: map<string, AwsS3.ProviderConfig>, k: nat)
    requires k < |names|
    ensures Resolutions(names, providers)[k] == ResolveProviderInstance(names[k], providers)
    decreases |names|
  {
    if k < |names| - 1 {
      ResolutionAt(names[..|names| - 1], providers, k);
    }
  }

  /** The index of the first resolution that throws, `|rs|` when none does. */
  function StopIndex(rs: seq<Resolution>): (k: nat)
    ensures k <= |rs|
    ensures k < |rs| ==> Throws(rs[k])
    ensures forall j :: 0 <= j < k ==> !Throws(rs[j])
  {
    if rs == [] then 0
    else if Throws(rs[0]) then 0
    else 1 + StopIndex(rs[1..])
  }

  /** The first throw is at `k` when no earlier resolution throws and `rs[k]` does (or `k`
      is the end). */
  lemma StopIndexIs(rs: seq<Resolution>, k: nat)
    requires k <= |rs|
    requires forall j :: 0 <= j < k ==> !Throws(rs[j])
    requires k < |rs| ==> Throws(rs[k])
    ensures StopIndex(rs) == k
  {
  }

  /** One more resolution that does not throw extends a throw-free prefix; one that throws
      is the first throw. */
  lemma StopIndexStep(rs: seq<Resolution>, k: nat)
    requires k < |rs| && StopIndex(rs[..k]) == k
    ensures !Throws(rs[k]) ==> StopIndex(rs[..k + 1]) == k + 1
    ensures Throws(rs[k]) ==> StopIndex(rs) == k
  {
    NoThrowBefore(rs, k);
    if Throws(rs[k]) {
      StopIndexIs(rs, k);
    } else {
      NoThrowInExtension(rs, rs[..k + 1], k);
      StopIndexIs(rs[..k + 1], k + 1);
    }
  }

  lemma NoThrowBefore(rs: seq<Resolution>, k: nat)
    requires k <= |rs| && StopIndex(rs[..k]) == k
    ensures forall j :: 0 <= j < k ==> !Throws(rs[j])
  {
    forall j | 0 <= j < k
      ensures !Throws(rs[j])
    {
      assert rs[..k][j] == rs[j];
    }
  }

  lemma NoThrowInExtension(rs: seq<Resolution>, ext: seq<Resolution>, k: nat)
    requires k < |rs| && ext == rs[..k + 1] && !Throws(rs[k])
    requires forall j :: 0 <= j < k ==> !Throws(rs[j])
    ensures forall j :: 0 <= j < k + 1 ==> !Throws(ext[j])
  {
    forall j | 0 <= j < k + 1
      ensures !Throws(ext[j])
    {
      assert ext[j] == rs[j];
    }
  }

  /** What the loop calls back while it runs through names that do not throw: one error
      callback per unresolvable name, and the loop goes on. */
  datatype Signal = ErrorCallback(message: string) | SuccessCallback | Thrown

  function ErrorSignals(rs: seq<Resolution>): (sigs: seq<Signal>)
    decreases |rs|
    ensures forall i :: 0 <= i < |sigs| ==> sigs[i].ErrorCallback?
  {
    if rs == [] then []
    else
      var r := rs[|rs| - 1];
      ErrorSignals(rs[..|rs| - 1]) + (if r.InvalidName? then [ErrorCallback(r.message)] else [])
  }

  /** The configurations stored for the names that resolve, with their bucket names
      normalised as `init` leaves them. */
  function ResolvedConfigs(names: seq<string>, rs: seq<Resolution>): map<string, AwsS3.ProviderConfig>
    requires |names| == |rs|
    decreases |names|
  {
    if names == [] then map[]
    else
      var name := names[|names| - 1];
      var t := ResolvedConfigs(names[..|names| - 1], rs[..|rs| - 1]);
      match rs[|rs| - 1]
      case InvalidName(_) => t
      case Instance(_, cfg) =>
        if cfg.s3BucketName.Str?
        then t[name := AwsS3.NormalisedConfig(cfg)]
        else t
  }

  lemma PrefixStep(names: seq<string>, rs: seq<Resolution>, k: nat)
    requires |names| == |rs| && k < |names|
    ensures var r := rs[k];
      && ErrorSignals(rs[..k + 1]) == ErrorSignals(rs[..k]) + (if r.InvalidName? then [ErrorCallback(r.message)] else [])
      && (r.Instance? && r.cfg.s3BucketName.Str? ==>
            ResolvedConfigs(names[..k + 1], rs[..k + 1]) ==
              ResolvedConfigs(names[..k], rs[..k])[names[k] := AwsS3.NormalisedConfig(r.cfg)])
      && (r.InvalidName? ==> ResolvedConfigs(names[..k + 1], rs[..k + 1]) == ResolvedConfigs(names[..k], rs[..k]))
  {
    assert names[..k + 1][..k] == names[..k];
    assert rs[..k + 1][..k] == rs[..k];
  }

  /** What one more name does to the prefixes `initializeDeploymentsAndProviders` has
      gone through, in terms of that name's resolution. */
  lemma LoopStep(names: seq<string>, providers: map<string, AwsS3.ProviderConfig>, rs: seq<Resolution>, k: nat)
    requires rs == Resolutions(names, providers) && k < |names| && StopIndex(rs[..k]) == k
    ensures var r := ResolveProviderInstance(names[k], providers);
      && (Throws(r) ==> StopIndex(rs) == k)
      && (!Throws(r) ==> StopIndex(rs[..k + 1]) == k + 1)
      && ErrorSignals(rs[..k + 1]) == ErrorSignals(rs[..k]) + (if r.InvalidName? then [ErrorCallback(r.message)] else [])
      && (r.InvalidName? ==> ResolvedConfigs(names[..k + 1], rs[..k + 1]) == ResolvedConfigs(names[..k], rs[..k]))
      && (r.Instance? && !Throws(r) ==>
            ResolvedConfigs(names[..k + 1], rs[..k + 1]) ==
              ResolvedConfigs(names[..k], rs[..k])[names[k] := AwsS3.NormalisedConfig(r.cfg)])
  {
    ResolutionAt(names, providers, k);
    PrefixStep(names, rs, k);
    StopIndexStep(rs, k);
  }

  /** A resolution that leaves a provider instance behind: one that resolves to a config
      whose bucket name `init` can normalise. */
  predicate Stores(r: Resolution) {
    r.Instance? && r.cfg.s3BucketName.Str?
  }

  /** `ResolvedConfigs` one name shorter. */
  lemma ResolvedConfigsLast(names: seq<string>, rs: seq<Resolution>)
    requires |names| == |rs| > 0
    ensures var m := |names| - 1;
      var t := ResolvedConfigs(names[..m], rs[..m]);
      ResolvedConfigs(names, rs) == if Stores(rs[m]) then t[names[m] := AwsS3.NormalisedConfig(rs[m].cfg)] else t
  {
  }

  /** Adding the last name to a table whose keys are the storing earlier names gives the
      storing names. */
  lemma ConfigsKeysStep(names: seq<string>, rs: seq<Resolution>,
                        t: map<string, AwsS3.ProviderConfig>, r: map<string, AwsS3.ProviderConfig>)
    requires |names| == |rs| > 0
    requires var m := |names| - 1;
      forall n :: n in t <==> exists k :: 0 <= k < m && names[..m][k] == n && Stores(rs[..m][k])
    requires r.Keys == if Stores(rs[|names| - 1]) then t.Keys + {names[|names| - 1]} else t.Keys
    ensures forall n :: n in r <==> exists k :: 0 <= k < |names| && names[k] == n && Stores(rs[k])
  {
    var m := |names| - 1;
    forall n
      ensures n in r <==> exists k :: 0 <= k < |names| && names[k] == n && Stores(rs[k])
    {
      if n in r && n !in t {
        assert names[m] == n && Stores(rs[m]);
      }
      if n in t {
        var k :| 0 <= k < m && names[..m][k] == n && Stores(rs[..m][k]);
        assert names[k] == n && Stores(rs[k]);
      }
      if exists k :: 0 <= k < |names| && names[k] == n && Stores(rs[k]) {
        var k :| 0 <= k < |names| && names[k] == n && Stores(rs[k]);
        if k < m {
          assert names[..m][k] == n && Stores(rs[..m][k]);
        }
      }
    }
  }

  /** Adding the last name, which is new, keeps the earlier names' configs. */
  lemma ConfigsValuesStep(names: seq<string>, rs: seq<Resolution>,
                          t: map<string, AwsS3.ProviderConfig>, r: map<string, AwsS3.ProviderConfig>)
    requires |names| == |rs| > 0 && Distinct(names)
    requires var m := |names| - 1;
      forall k :: 0 <= k < m && Stores(rs[..m][k]) ==>
        names[..m][k] in t && t[names[..m][k]] == AwsS3.NormalisedConfig(rs[..m][k].cfg)
    requires var m := |names| - 1;
      r == if Stores(rs[m]) then t[names[m] := AwsS3.NormalisedConfig(rs[m].cfg)] else t
    ensures forall k :: 0 <= k < |names| && Stores(rs[k]) ==>
              names[k] in r && r[names[k]] == AwsS3.NormalisedConfig(rs[k].cfg)
  {
    var m := |names| - 1;
    forall k | 0 <= k < m && Stores(rs[k])
      ensures names[k] in r && r[names[k]] == AwsS3.NormalisedConfig(rs[k].cfg)
    {
      assert names[..m][k] == names[k] && rs[..m][k] == rs[k];
      assert names[k] != names[m];
    }
  }

  /** For distinct names, the table holds exactly the names whose resolution stores an
      instance, each with its normalised config. */
  lemma {:induction false} ResolvedConfigsSpec(names: seq<string>, rs: seq<Resolution>)
    requires |names| == |rs|
    requires Distinct(names)
    ensures forall n :: n in ResolvedConfigs(names, rs) <==>
              exists k :: 0 <= k < |names| && names[k] == n && Stores(rs[k])
    ensures forall k :: 0 <= k < |names| && Stores(rs[k]) ==>
              ResolvedConfigs(names, rs)[names[k]] == AwsS3.NormalisedConfig(rs[k].cfg)
    decreases |names|
  {
    if names != [] {
      var m := |names| - 1;
      DistinctPrefix(names, m);
      ResolvedConfigsSpec(names[..m], rs[..m]);
      ResolvedConfigsLast(names, rs);
      ConfigsKeysStep(names, rs, ResolvedConfigs(names[..m], rs[..m]), ResolvedConfigs(names, rs));
      ConfigsValuesStep(names, rs, ResolvedConfigs(names[..m], rs[..m]), ResolvedConfigs(names, rs));
    }
  }

  lemma DistinctPrefix(names: seq<string>, m: nat)
    requires m <= |names| && Distinct(names)
    ensures Distinct(names[..m])
  {
    forall i, j | 0 <= i < j < m
      ensures names[..m][i] != names[..m][j]
    {
      assert names[..m][i] == names[i] && names[..m][j] == names[j];
    }
  }

  /** The distinct provider-instance names of a valid configuration, in first-occurrence order. */
  function DistinctProviderNames(config: Config): seq<string>
    requires ValidateConfig(config).Success?
  {
    Uniq(ProviderNames(config.mongoDeployments.value))
  }

  /** The provider table a valid configuration leaves behind: the names before the first
      throw that resolve, with their configs. */
  function ProviderTable(config: Config): map<string, AwsS3.ProviderConfig>
    requires ValidateConfig(config).Success?
  {
    var names := DistinctProviderNames(config);
    var rs := Resolutions(names, config.providers.value);
    var stop := StopIndex(rs);
    ResolvedConfigs(names[..stop], rs[..stop])
  }

  /** No name occurs twice. */
  predicate Distinct(names: seq<string>) {
    forall i, j :: 0 <= i < j < |names| ==> names[i] != names[j]
  }

  /** Over distinct names, the table left by the names before the first throw holds exactly
      those that resolve to an instance, with their normalised configs. */
  lemma TableBeforeFirstThrow(names: seq<string>, rs: seq<Resolution>)
    requires |names| == |rs| && Distinct(names)
    ensures var stop := StopIndex(rs);
      var table := ResolvedConfigs(names[..stop], rs[..stop]);
      && (forall n :: n in table <==> exists k :: 0 <= k < stop && names[k] == n && rs[k].Instance?)
      && (forall k :: 0 <= k < stop && rs[k].Instance? ==> table[names[k]] == AwsS3.NormalisedConfig(rs[k].cfg))
  {
    var stop := StopIndex(rs);
    var ns, rss := names[..stop], rs[..stop];
    forall k | 0 <= k < stop
      ensures ns[k] == names[k] && rss[k] == rs[k]
      ensures rss[k].Instance? ==> Stores(rss[k])
    {
    }
    assert Distinct(ns);
    ResolvedConfigsSpec(ns, rss);
  }

  /** The provider table holds exactly the distinct names before the first throw that
      resolve to an instance, each once, with its normalised config. */
  lemma ProviderTableSpec(config: Config)
    requires ValidateConfig(config).Success?
    ensures var names := DistinctProviderNames(config);
      var rs := Resolutions(names, config.providers.value);
      var stop := StopIndex(rs);
      && (forall k :: 0 <= k < |names| ==> rs[k] == ResolveProviderInstance(names[k], config.providers.value))
      && (forall n :: n in ProviderTable(config) <==> exists k :: 0 <= k < stop && names[k] == n && rs[k].Instance?)
      && (forall k :: 0 <= k < stop && rs[k].Instance? ==> ProviderTable(config)[names[k]] == AwsS3.NormalisedConfig(rs[k].cfg))
  {
    var names := DistinctProviderNames(config);
    var providers := config.providers.value;
    var rs := Resolutions(names, providers);
    DistinctProviderNamesDistinct(config);
    forall k | 0 <= k < |names|
      ensures rs[k] == ResolveProviderInstance(names[k], providers)
    {
      ResolutionAt(names, providers, k);
    }
    assert ProviderTable(config) == ResolvedConfigs(names[..StopIndex(rs)], rs[..StopIndex(rs)]);
    TableBeforeFirstThrow(names, rs);
  }

  lemma DistinctProviderNamesDistinct(config: Config)
    requires ValidateConfig(config).Success?
    ensures Distinct(DistinctProviderNames(config))
  {
    UniqSpec(ProviderNames(config.mongoDeployments.value));
  }

  /** Every callback the code makes, in order: the shape error alone; or the error callback
      of every unresolvable name before the first throw, then the throw, or after them the
      final `cb()`, which runs although errors were reported. */
  function InitSignals(config: Config): seq<Signal> {
    match ValidateConfig(config)
    case Failure(e) => [ErrorCallback(e)]
    case Success(_) =>
      var rs := Resolutions(DistinctProviderNames(config), config.providers.value);
      var stop := StopIndex(rs);
      ErrorSignals(rs[..stop]) + [if stop < |rs| then Thrown else SuccessCallback]
  }

  /** The only callback `initializeDeploymentsAndProviders` evidently means to make: the
      first error, ending the run there, or success. */
  function CorrectedSignal(config: Config): Signal {
    match ValidateConfig(config)
    case Failure(e) => ErrorCallback(e)
    case Success(_) => FirstOutcome(Resolutions(DistinctProviderNames(config), config.providers.value))
  }

  function FirstOutcome(rs: seq<Resolution>): Signal
    decreases |rs|
  {
    if rs == [] then SuccessCallback
    else if rs[0].InvalidName? then ErrorCallback(rs[0].message)
    else if Throws(rs[0]) then Thrown
    else FirstOutcome(rs[1..])
  }

  lemma {:induction false} ErrorSignalsFront(rs: seq<Resolution>)
    requires rs != []
    ensures ErrorSignals(rs) ==
              (if rs[0].InvalidName? then [ErrorCallback(rs[0].message)] else []) + ErrorSignals(rs[1..])
    decreases |rs|
  {
    if |rs| > 1 {
      var init := rs[..|rs| - 1];
      ErrorSignalsFront(init);
      assert init[0] == rs[0];
      assert init[1..] == rs[1..][..|rs| - 2];
    } else {
      assert rs[..0] == [] && rs[1..] == [];
    }
  }

  lemma {:induction false} FirstOutcomeIsFirstSignal(rs: seq<Resolution>)
    ensures var stop := StopIndex(rs);
      FirstOutcome(rs) == (ErrorSignals(rs[..stop]) + [if stop < |rs| then Thrown else SuccessCallback])[0]
    decreases |rs|
  {
    var stop := StopIndex(rs);
    if rs != [] && !Throws(rs[0]) {
      FirstOutcomeIsFirstSignal(rs[1..]);
      assert stop == 1 + StopIndex(rs[1..]);
      ErrorSignalsFront(rs[..stop]);
      assert rs[..stop][1..] == rs[1..][..stop - 1];
    }
  }

  /** The corrected single callback is the first callback the code as written makes. */
  lemma CorrectedSignalIsFirst(config: Config)
    ensures |InitSignals(config)| > 0 && CorrectedSignal(config) == InitSignals(config)[0]
  {
    if ValidateConfig(config).Success? {
      FirstOutcomeIsFirstSignal(Resolutions(DistinctProviderNames(config), config.providers.value));
    }
  }

  /** One deployment naming the provider instance `nodot`: the error callback is made, and
      then the final `cb()` is made as well. */
  lemma DoubleCallbackExample(d: MongoDeployment.DeploymentConfig)
    requires d.providerInstances == Some([Str("nodot")])
    ensures InitSignals(ConfigObject(Some(map[]), Some([d])))
            == [ErrorCallback("Error: providerInstanceName of nodot is invalid."), SuccessCallback]
    ensures CorrectedSignal(ConfigObject(Some(map[]), Some([d])))
            == ErrorCallback("Error: providerInstanceName of nodot is invalid.")
  {
    NodotInitSignals(d);
    NodotCorrectedSignal(d);
  }

  lemma NodotInitSignals(d: MongoDeployment.DeploymentConfig)
    requires d.providerInstances == Some([Str("nodot")])
    ensures InitSignals(ConfigObject(Some(map[]), Some([d])))
            == [ErrorCallback("Error: providerInstanceName of nodot is invalid."), SuccessCallback]
  {
    NodotNames(d);
    NodotResolutions();
  }

  lemma NodotCorrectedSignal(d: MongoDeployment.DeploymentConfig)
    requires d.providerInstances == Some([Str("nodot")])
    ensures CorrectedSignal(ConfigObject(Some(map[]), Some([d])))
            == ErrorCallback("Error: providerInstanceName of nodot is invalid.")
  {
    NodotNames(d);
    NodotResolutions();
  }

  lemma NodotNames(d: MongoDeployment.DeploymentConfig)
    requires d.providerInstances == Some([Str("nodot")])
    ensures ValidateConfig(ConfigObject(Some(map[]), Some([d]))).Success?
    ensures DistinctProviderNames(ConfigObject(Some(map[]), Some([d]))) == ["nodot"]
  {
    var ds := [d];
    assert ds[..0] == [];
    assert StringEntries([Str("nodot")]) == ["nodot"];
    assert ProviderNames(ds) == ["nodot"];
    assert Uniq(["nodot"]) == ["nodot"];
  }

  lemma NodotResolutions()
    ensures var rs := Resolutions(["nodot"], map[]);
      && rs == [InvalidName("Error: providerInstanceName of nodot is invalid.")]
      && StopIndex(rs) == 1
      && ErrorSignals(rs[..1]) == [ErrorCallback("Error: providerInstanceName of nodot is invalid.")]
  {
    NoOccurrenceOfAbsentChar("nodot", '.');
    var r := ResolveProviderInstance("nodot", map[]);
    assert r == InvalidName("Error: providerInstanceName of nodot is invalid.");
    var rs := Resolutions(["nodot"], map[]);
    assert ["nodot"][..0] == [];
    assert rs == [r];
    assert StopIndex(rs) == 1;
    assert rs[..1] == rs && rs[..0] == [];
  }

  /** `after` is `before` followed by one new deployment per configuration in `kept`,
      initialised with it. */
  ghost predicate DeploymentsAppended(before: seq<MongoDeployment.Deployment>, after: seq<MongoDeployment.Deployment>,
                                      kept: seq<MongoDeployment.DeploymentConfig>)
    reads after
  {
    && |after| == |before| + |kept|
    && after[..|before|] == before
    && forall j :: 0 <= j < |kept| ==>
         after[|before| + j].config == Some(kept[j]) &&
         after[|before| + j].requestOptionsTemplate == Some(MongoDeployment.RequestOptionsTemplate(kept[j]))
  }

  /** `after` holds the entries of `before`, except that every name in `resolved` now has a
      provider instance holding its resolved config. */
  ghost predicate ProvidersAdded(before: map<string, AwsS3.AwsS3Provider>, after: map<string, AwsS3.AwsS3Provider>,
                                 resolved: map<string, AwsS3.ProviderConfig>)
    reads after.Values
  {
    && after.Keys == before.Keys + resolved.Keys
    && (forall n :: n in resolved ==> after[n].config == Some(resolved[n]))
    && (forall n :: n in after && n !in resolved ==> after[n] == before[n])
  }

  lemma ProvidersAddedStep(before: map<string, AwsS3.AwsS3Provider>, after: map<string, AwsS3.AwsS3Provider>,
                           resolved: map<string, AwsS3.ProviderConfig>,
                           name: string, p: AwsS3.AwsS3Provider, cfg: AwsS3.ProviderConfig)
    requires ProvidersAdded(before, after, resolved)
    requires p.config == Some(cfg)
    ensures ProvidersAdded(before, after[name := p], resolved[name := cfg])
  {
  }

  /** The module-level `mongoDeployments` array and `providerInstances` table. */
  class Registry {
    var mongoDeployments: seq<MongoDeployment.Deployment>
    var providerInstances: map<string, AwsS3.AwsS3Provider>

    constructor ()
      ensures mongoDeployments == [] && providerInstances == map[]
    {
      mongoDeployments := [];
      providerInstances := map[];
    }

    /** Lines 93-100: one new deployment appended per kept configured deployment, in
      key order, initialised with its config; returns the collected provider names. */
    method AddDeployments(deployments: seq<MongoDeployment.DeploymentConfig>) returns (masterProviderList: seq<string>)
      modifies this
      ensures masterProviderList == ProviderNames(deployments)
      ensures providerInstances == old(providerInstances)
      ensures DeploymentsAppended(old(mongoDeployments), mongoDeployments, KeptDeployments(deployments))
    {
      masterProviderList := [];
      var i := 0;
      while i < |deployments|
        invariant 0 <= i <= |deployments|
        invariant masterProviderList == ProviderNames(deployments[..i])
        invariant providerInstances == old(providerInstances)
        invariant DeploymentsAppended(old(mongoDeployments), mongoDeployments, KeptDeployments(deployments[..i]))
      {
        assert deployments[..i + 1][..i] == deployments[..i];
        var deploymentConfig := deployments[i];
        if HasProviders(deploymentConfig) {
          var validProviders := StringEntries(deploymentConfig.providerInstances.value);
          var d := new MongoDeployment.Deployment();
          d.Init(deploymentConfig);
          mongoDeployments := mongoDeployments + [d];
          masterProviderList := masterProviderList + validProviders;
        }
        i := i + 1;
      }
      assert deployments[..|deployments|] == deployments;
    }

    /** Line 126 for the `aws` provider: a new instance initialised with `cfg`, stored under
      `name` unless its `init` throws. */
    method StoreProviderInstance(name: string, cfg: AwsS3.ProviderConfig,
                                 ghost before: map<string, AwsS3.AwsS3Provider>,
                                 ghost resolved: map<string, AwsS3.ProviderConfig>)
      returns (threw: bool)
      requires ProvidersAdded(before, providerInstances, resolved)
      modifies this
      ensures mongoDeployments == old(mongoDeployments)
      ensures threw <==> !cfg.s3BucketName.Str?
      ensures threw ==> providerInstances == old(providerInstances)
      ensures ProvidersAdded(before, providerInstances,
                             if threw then resolved else resolved[name := AwsS3.NormalisedConfig(cfg)])
    {
      var p := new AwsS3.AwsS3Provider();
      assert p !in providerInstances.Values;
      threw := p.Init(cfg);
      assert ProvidersAdded(before, providerInstances, resolved);
      if threw {
        return;
      }
      ProvidersAddedStep(before, providerInstances, resolved, name, p, p.config.value);
      providerInstances := providerInstances[name := p];
    }

    /** Lines 105-128 over the distinct names: every resolvable name before the first
      throw gets a new provider instance holding its normalised config, other entries
      stay; returns the callbacks made (the final `cb()` not included) and whether a
      name threw. */
    method AddProviderInstances(names: seq<string>, providers: map<string, AwsS3.ProviderConfig>)
      returns (signals: seq<Signal>, threw: bool)
      modifies this
      ensures mongoDeployments == old(mongoDeployments)
      ensures AddedAll(names, providers, signals, threw, old(providerInstances))
    {
      ghost var rs := Resolutions(names, providers);
      signals := [];
      var k := 0;
      AddedThroughStart(names, rs);
      while k < |names|
        invariant k <= |names|
        invariant mongoDeployments == old(mongoDeployments)
        invariant AddedThrough(names, rs, k, signals, old(providerInstances))
      {
        var out, thrown := AddProviderInstanceAt(names, providers, k, rs, signals, old(providerInstances));
        if thrown {
          return signals + out, true;
        }
        signals := signals + out;
        k := k + 1;
      }
      AddedThroughEnd(names, providers, rs, signals, old(providerInstances));
      threw := false;
    }

    /** What the loop over `names` leaves behind, `before` being the table it started from:
      it threw exactly when some name throws; the callbacks are the error callback of every
      unresolvable name before the first throw, then the throw if there is one; and the
      table gained exactly the resolvable names before the first throw, each holding its
      normalised config, all other entries staying. */
    ghost predicate AddedAll(names: seq<string>, providers: map<string, AwsS3.ProviderConfig>,
                             signals: seq<Signal>, threw: bool, before: map<string, AwsS3.AwsS3Provider>)
      reads this, providerInstances.Values
    {
      var rs := Resolutions(names, providers);
      var stop := StopIndex(rs);
      && (threw <==> stop < |rs|)
      && signals == ErrorSignals(rs[..stop]) + (if threw then [Thrown] else [])
      && ProvidersAdded(before, providerInstances, ResolvedConfigs(names[..stop], rs[..stop]))
    }

    /** The loop has gone through the first `k` names without a throw: the callbacks so
      far and the table are those of those names. */
    ghost predicate AddedThrough(names: seq<string>, rs: seq<Resolution>, k: nat, signals: seq<Signal>,
                                 before: map<string, AwsS3.AwsS3Provider>)
      reads this, providerInstances.Values
    {
      && k <= |names| == |rs|
      && StopIndex(rs[..k]) == k
      && signals == ErrorSignals(rs[..k])
      && ProvidersAdded(before, providerInstances, ResolvedConfigs(names[..k], rs[..k]))
    }

    lemma AddedThroughStart(names: seq<string>, rs: seq<Resolution>)
      requires |names| == |rs|
      ensures AddedThrough(names, rs, 0, [], providerInstances)
    {
      assert names[..0] == [] && rs[..0] == [];
    }

    lemma AddedThroughEnd(names: seq<string>, providers: map<string, AwsS3.ProviderConfig>, rs: seq<Resolution>,
                          signals: seq<Signal>, before: map<string, AwsS3.AwsS3Provider>)
      requires rs == Resolutions(names, providers)
      requires AddedThrough(names, rs, |names|, signals, before)
      ensures AddedAll(names, providers, signals, false, before)
    {
      assert names[..|names|] == names && rs[..|rs|] == rs;
    }

    /** The `k`-th pass of the loop: a throw ends it with the callbacks and table of the
      names before it; otherwise the callbacks and the table grow by the `k`-th name. */
    method AddProviderInstanceAt(names: seq<string>, providers: map<string, AwsS3.ProviderConfig>, k: nat,
                                 ghost rs: seq<Resolution>, ghost sofar: seq<Signal>,
                                 ghost before: map<string, AwsS3.AwsS3Provider>)
      returns (out: seq<Signal>, threw: bool)
      requires rs == Resolutions(names, providers) && k < |names|
      requires AddedThrough(names, rs, k, sofar, before)
      modifies this
      ensures mongoDeployments == old(mongoDeployments)
      ensures threw ==> AddedAll(names, providers, sofar + out, true, before)
      ensures !threw ==> AddedThrough(names, rs, k + 1, sofar + out, before)
    {
      LoopStep(names, providers, rs, k);
      out, threw := AddProviderInstance(names[k], providers, before, ResolvedConfigs(names[..k], rs[..k]));
    }

    /** Lines 106-127 for one name: an unresolvable name reports its error, a provider name
      other than `aws` or an `init` that throws ends the loop, and otherwise the new
      instance is stored under the name. */
    method AddProviderInstance(name: string, providers: map<string, AwsS3.ProviderConfig>,
                               ghost before: map<string, AwsS3.AwsS3Provider>,
                               ghost resolved: map<string, AwsS3.ProviderConfig>)
      returns (out: seq<Signal>, threw: bool)
      requires ProvidersAdded(before, providerInstances, resolved)
      modifies this
      ensures mongoDeployments == old(mongoDeployments)
      ensures var r := ResolveProviderInstance(name, providers);
        && (threw <==> Throws(r))
        && out == (if r.InvalidName? then [ErrorCallback(r.message)] else if threw then [Thrown] else [])
        && (threw || r.InvalidName? ==> providerInstances == old(providerInstances))
        && ProvidersAdded(before, providerInstances,
                          if !threw && r.Instance? then resolved[name := AwsS3.NormalisedConfig(r.cfg)] else resolved)
    {
      var resolution := ResolveProviderInstance(name, providers);
      if resolution.InvalidName? {
        return [ErrorCallback(resolution.message)], false;
      } else if resolution.providerName != AWS {
        return [Thrown], true;
      }
      threw := StoreProviderInstance(name, resolution.cfg, before, resolved);
      out := if threw then [Thrown] else [];
    }

    /** `initializeDeploymentsAndProviders`: returns every callback made, in order. A bad
      shape changes nothing. Otherwise one new deployment is appended per kept configured
      deployment, in key order; and every name before the first throw that resolves gets
      one new provider instance holding its normalised config, all other entries staying. */
    method InitializeDeploymentsAndProviders(config: Config) returns (signals: seq<Signal>)
      modifies this
      ensures signals == InitSignals(config)
      ensures ValidateConfig(config).Failure? ==>
                mongoDeployments == old(mongoDeployments) && providerInstances == old(providerInstances)
      ensures ValidateConfig(config).Success? ==>
                DeploymentsAppended(old(mongoDeployments), mongoDeployments, KeptDeployments(config.mongoDeployments.value))
      ensures ValidateConfig(config).Success? ==>
                ProvidersAdded(old(providerInstances), providerInstances, ProviderTable(config))
    {
      var valid := ValidateConfig(config);
      if valid.Failure? {
        return [ErrorCallback(valid.error)];
      }
      var masterProviderList := AddDeployments(config.mongoDeployments.value);
      masterProviderList := Uniq(masterProviderList);
      var threw;
      signals, threw := AddProviderInstances(masterProviderList, config.providers.value);
      if !threw {
        signals := signals + [SuccessCallback];
      }
    }
  }
}
