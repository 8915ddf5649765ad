/** The AWS S3 storage provider: bucket-name normalisation at `init`, and the argument
    checks and option records `upload` prepares before the streaming upload begins. */
module AwsS3 {
  import opened Wrappers
  import opened Js
  import opened Strings

  /** One entry of the configuration's `providers` (for example `providers.aws.username`). */
  datatype ProviderConfig = ProviderConfig(accessKeyId: JsStr, secretKey: JsStr, s3BucketName: JsStr)

  const S3_SCHEME: string := "s3://"

  /** `name.replace('s3://', '')`: the first `s3://` is cut out wherever it occurs. */
  function NormaliseBucketName(name: string): string {
    ReplaceFirst(name, S3_SCHEME, "")
  }

  /** The config `init` leaves behind: the same config with its bucket name normalised. */
  function NormalisedConfig(cfg: ProviderConfig): ProviderConfig
    requires cfg.s3BucketName.Str?
  {
    cfg.(s3BucketName := Str(NormaliseBucketName(cfg.s3BucketName.s)))
  }

  /** A name without `s3://` is left as it is. */
  lemma NormaliseWithoutScheme(name: string)
    requires forall k :: !OccursAt(name, S3_SCHEME, k)
    ensures NormaliseBucketName(name) == name
  {
  }

  /** `s3://my-bucket` becomes `my-bucket`. */
  lemma NormaliseStripsLeadingScheme(name: string)
    requires |name| >= 5 && name[..5] == S3_SCHEME
    ensures NormaliseBucketName(name) == name[5..]
  {
    IndexOfZeroIsPrefix(name, S3_SCHEME);
  }

  /** Only the first occurrence goes: putting `s3://` back at the position of the first
      occurrence gives the original name, and nothing before that position contained it. */
  lemma NormaliseRemovesFirstOccurrence(name: string)
    requires exists k :: OccursAt(name, S3_SCHEME, k)
    ensures var i := IndexOf(name, S3_SCHEME);
      var r := NormaliseBucketName(name);
      && 0 <= i <= |r|
      && name == r[..i] + S3_SCHEME + r[i..]
      && forall k :: 0 <= k < i ==> !OccursAt(name, S3_SCHEME, k)
  {
    var i := IndexOf(name, S3_SCHEME);
    var r := NormaliseBucketName(name);
    assert r == name[..i] + name[i + 5..];
    assert r[..i] == name[..i];
    assert r[i..] == name[i + 5..];
    assert name[i..i + 5] == S3_SCHEME;
    assert name == name[..i] + name[i..i + 5] + name[i + 5..];
  }

  /** Normalising a second time changes nothing exactly when the first pass left no
      `s3://` behind; otherwise the second pass removes five more characters. */
  lemma NormaliseIdempotentIffNoSchemeLeft(name: string)
    ensures NormaliseBucketName(NormaliseBucketName(name)) == NormaliseBucketName(name) <==>
              forall k :: !OccursAt(NormaliseBucketName(name), S3_SCHEME, k)
  {
    var once := NormaliseBucketName(name);
    var i := IndexOf(once, S3_SCHEME);
    if i != -1 {
      assert |NormaliseBucketName(once)| == |once| - |S3_SCHEME|;
    }
  }

  /** One `s3://` in the configured name is not enough: cutting it out of `s3:/s3:///`
      joins the pieces into a new `s3://`. */
  lemma NormaliseSingleSchemeNotIdempotent()
    ensures IndexOf("s3:/s3:///", S3_SCHEME) == 4
    ensures forall k :: OccursAt("s3:/s3:///", S3_SCHEME, k) <==> k == 4
    ensures NormaliseBucketName("s3:/s3:///") == "s3://"
    ensures NormaliseBucketName(NormaliseBucketName("s3:/s3:///")) == ""
  {
    var name := "s3:/s3:///";
    forall k | OccursAt(name, S3_SCHEME, k)
      ensures k == 4
    {
      assert name[k..k + 5] == S3_SCHEME;
      assert name[k] == 's' && name[k + 4] == '/';
    }
    assert OccursAt(name, S3_SCHEME, 4);
    IndexOfZeroIsPrefix("s3://", S3_SCHEME);
  }

  /** `uploadBucketConfig`. */
  datatype BucketConfig = BucketConfig(bucket: JsStr, key: string, contentType: string, acl: string)

  /** `streamOpts`. */
  datatype StreamOptions = StreamOptions(concurrentParts: nat, waitTime: nat, retries: nat, maxPartSize: nat)

  /** What is handed to the streaming uploader: the source url, the credentials and the
      two option records. */
  datatype UploadPlan = UploadPlan(
    downloadUrl: string, accessKeyId: JsStr, secretKey: JsStr, bucket: BucketConfig, stream: StreamOptions)

  const CONTENT_TYPE: string := "application/x-gzip"
  const ACL: string := "public-read"
  const STREAM_OPTIONS: StreamOptions := StreamOptions(10, 10000, 5, 10 * 1024 * 1024)

  /** The download url guard: a non-empty string whose `indexOf('http')` is 0. */
  predicate ValidDownloadUrl(downloadUrl: JsStr) {
    downloadUrl.Str? && |downloadUrl.s| > 0 && IndexOf(downloadUrl.s, "http") == 0
  }

  /** The `indexOf('http') === 0` guard accepts exactly the strings that begin with `http`. */
  lemma DownloadUrlGuardIsPrefix(downloadUrl: JsStr)
    ensures ValidDownloadUrl(downloadUrl) <==>
              downloadUrl.Str? && |downloadUrl.s| >= 4 && downloadUrl.s[..4] == "http"
  {
    if downloadUrl.Str? {
      IndexOfZeroIsPrefix(downloadUrl.s, "http");
    }
  }

  /** The destination guard: a non-empty string. */
  predicate ValidDestinationFile(destinationFile: JsStr) {
    destinationFile.Str? && |destinationFile.s| > 0
  }

  /** `upload` up to the point where the streaming library takes over: the url is checked
      first, then the destination, and a plan is built only when both pass. */
  function Upload(cfg: ProviderConfig, downloadUrl: JsStr, destinationFile: JsStr): (r: Result<UploadPlan>)
    ensures !(downloadUrl.Str? && |downloadUrl.s| >= 4 && downloadUrl.s[..4] == "http") ==>
              r == Failure("Invalid downloadUrl")
    ensures downloadUrl.Str? && |downloadUrl.s| >= 4 && downloadUrl.s[..4] == "http" && !ValidDestinationFile(destinationFile) ==>
              r == Failure("Invalid destinationFile")
    ensures r.Success? <==> downloadUrl.Str? && |downloadUrl.s| >= 4 && downloadUrl.s[..4] == "http" &&
                            destinationFile.Str? && destinationFile.s != ""
    ensures r.Success? ==> r.value == UploadPlan(downloadUrl.s, cfg.accessKeyId, cfg.secretKey,
                                                 BucketConfig(cfg.s3BucketName, destinationFile.s, CONTENT_TYPE, ACL),
                                                 STREAM_OPTIONS)
  {
    DownloadUrlGuardIsPrefix(downloadUrl);
    if !ValidDownloadUrl(downloadUrl) then Failure("Invalid downloadUrl")
    else if !ValidDestinationFile(destinationFile) then Failure("Invalid destinationFile")
    else Success(UploadPlan(downloadUrl.s, cfg.accessKeyId, cfg.secretKey,
                            BucketConfig(cfg.s3BucketName, destinationFile.s, CONTENT_TYPE, ACL),
                            STREAM_OPTIONS))
  }

  /** After `init` has normalised the config, the plan's Bucket is the normalised bucket
      name, and the credentials are the configured ones. */
  lemma UploadUsesNormalisedBucket(cfg: ProviderConfig, downloadUrl: JsStr, destinationFile: JsStr)
    requires cfg.s3BucketName.Str?
    requires Upload(NormalisedConfig(cfg), downloadUrl, destinationFile).Success?
    ensures Upload(NormalisedConfig(cfg), downloadUrl, destinationFile).value.bucket.bucket ==
              Str(NormaliseBucketName(cfg.s3BucketName.s))
    ensures Upload(NormalisedConfig(cfg), downloadUrl, destinationFile).value.accessKeyId == cfg.accessKeyId
    ensures Upload(NormalisedConfig(cfg), downloadUrl, destinationFile).value.secretKey == cfg.secretKey
  {
  }

  /** The stream options are the fixed constants: ten parts in flight, ten seconds of
      waiting, five retries and parts of 10 MiB. */
  lemma StreamOptionsAreFixed(cfg: ProviderConfig, downloadUrl: JsStr, destinationFile: JsStr)
    requires Upload(cfg, downloadUrl, destinationFile).Success?
    ensures Upload(cfg, downloadUrl, destinationFile).value.stream.concurrentParts == 10
    ensures Upload(cfg, downloadUrl, destinationFile).value.stream.waitTime == 10000
    ensures Upload(cfg, downloadUrl, destinationFile).value.stream.retries == 5
    ensures Upload(cfg, downloadUrl, destinationFile).value.stream.maxPartSize == 10485760
  {
  }

  /** An AWS provider instance. */
  class AwsS3Provider {
    var config: Option<ProviderConfig>

    /** `new AwsS3Provider()`: no config until `init`. */
    constructor ()
      ensures config == None
    {
      config := None;
    }

    /** `init`: store the config, then normalise its bucket name in place. A bucket name
      that is not a string makes `.replace` throw; the config has been stored by then. */
    method Init(initConfig: ProviderConfig) returns (threw: bool)
      modifies this
      ensures threw <==> !initConfig.s3BucketName.Str?
      ensures threw ==> config == Some(initConfig)
      ensures !threw ==> config == Some(NormalisedConfig(initConfig))
    {
      config := Some(initConfig);
      if !config.value.s3BucketName.Str? {
        return true;
      }
      config := Some(config.value.(s3BucketName := Str(NormaliseBucketName(config.value.s3BucketName.s))));
      threw := false;
    }
  }
}
