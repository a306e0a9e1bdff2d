/**
 * The storage-upload trigger: it reads the object's metadata from the event,
 * composes the `gs://` URI and, when an API base URL is configured, posts a
 * four-field payload to the processing endpoint.
 */
module Trigger {

  import opened Wrappers
  import opened Values
  import Decimal

  /** The exceptions that escape the trigger: a missing key, or a size `int()` rejects. */
  datatype TriggerError =
    | KeyError(key: string)
    | ValueError(literal: string)
    | TypeError(argument: Value)

  /** `int(v)` on an event value, as an int or the exception it raises. */
  datatype Conversion = Converted(n: int) | Rejected(error: TriggerError)

  function IntOf(v: Value): (r: Conversion)
    ensures v.Int? ==> r == Converted(v.i)
    ensures v.Str? ==> (r.Converted? <==> Decimal.ParseInt(v.s).Some?)
    ensures v.Str? && r.Converted? ==> r.n == Decimal.ParseInt(v.s).value
    ensures r.Rejected? ==> r.error.ValueError? || r.error.TypeError?
  {
    match v
    case Int(i) => Converted(i)
    case Bool(b) => Converted(if b then 1 else 0)
    case Str(s) =>
      (match Decimal.ParseInt(s)
       case Some(n) => Converted(n)
       case None => Rejected(ValueError(s)))
    case _ => Rejected(TypeError(v))
  }

  function GcsUri(bucket: string, name: string): string {
    "gs://" + bucket + "/" + name
  }

  /** The index of the first '/' in s, or |s| when there is none. */
  function FirstSlash(s: string): (i: nat)
    ensures i <= |s|
    ensures forall j :: 0 <= j < i ==> s[j] != '/'
    ensures i < |s| ==> s[i] == '/'
  {
    if s == [] || s[0] == '/' then 0 else 1 + FirstSlash(s[1..])
  }

  /** Splits a `gs://bucket/name` URI into bucket and object name. */
  function ParseGcsUri(uri: string): Option<(string, string)> {
    if |uri| < 5 || uri[..5] != "gs://" then None
    else
      var rest := uri[5..];
      var i := FirstSlash(rest);
      if i == |rest| then None else Some((rest[..i], rest[i + 1..]))
  }

  /** A URI built from a bucket name without '/' splits back into that bucket and the object name. */
  lemma GcsUriRoundTrip(bucket: string, name: string)
    requires '/' !in bucket
    ensures ParseGcsUri(GcsUri(bucket, name)) == Some((bucket, name))
  {
    var uri := GcsUri(bucket, name);
    var rest := uri[5..];
    assert rest == bucket + "/" + name;
    var i := FirstSlash(rest);
    assert rest[|bucket|] == '/';
    assert i == |bucket|;
    assert rest[..i] == bucket;
    assert rest[i + 1..] == name;
  }

  datatype Post = Post(url: string, payload: Dict)

  /** How an invocation ends: an escaping exception, or a normal return after at most one POST. */
  datatype Invocation = Raised(error: TriggerError) | Returned(post: Option<Post>)

  const RequiredKeys: set<string> := {"bucket", "name", "size", "timeCreated"}

  /** The event carries every required key and a size that `int()` accepts. */
  predicate WellFormedEvent(data: Dict) {
    RequiredKeys <= data.Keys && IntOf(data["size"]).Converted?
  }

  /**
   * The trigger for one upload event. Keys are read in the order the source
   * reads them, so the first missing key (or a bad size) is what raises. The
   * POST's success or failure is not an input: every failure is caught and
   * logged, and the function returns normally either way. `if not API_URL:`
   * skips the POST when the variable is unset or empty.
   */
  function ProcessGcsUpload(data: Dict, apiUrl: Option<string>, show: Value -> string): (r: Invocation)
    ensures r.Raised? <==> !WellFormedEvent(data)
    ensures r.Raised? && r.error.KeyError? ==> r.error.key in RequiredKeys && r.error.key !in data
    ensures r == Returned(None) <==> WellFormedEvent(data) && !TruthyText(apiUrl)
    ensures r.Returned? && r.post.Some? ==>
              && TruthyText(apiUrl)
              && r.post.value.url == apiUrl.value + "/process"
              && r.post.value.payload.Keys == {"gcs_uri", "name", "size", "content_type"}
              && r.post.value.payload["gcs_uri"]
                 == Str(GcsUri(Formatted(data["bucket"], show), Formatted(data["name"], show)))
              && r.post.value.payload["name"] == data["name"]
              && r.post.value.payload["size"] == Int(IntOf(data["size"]).n)
              && r.post.value.payload["content_type"] == Get(data, "contentType")
  {
    if "bucket" !in data then Raised(KeyError("bucket"))
    else if "name" !in data then Raised(KeyError("name"))
    else if "size" !in data then Raised(KeyError("size"))
    else match IntOf(data["size"])
      case Rejected(error) => Raised(error)
      case Converted(size) =>
        if "timeCreated" !in data then Raised(KeyError("timeCreated"))
        else
          var bucket, name := data["bucket"], data["name"];
          var contentType := Get(data, "contentType");
          var gcsUri := GcsUri(Formatted(bucket, show), Formatted(name, show));
          if !TruthyText(apiUrl) then Returned(None)
          else
            var payload := map["gcs_uri" := Str(gcsUri), "name" := name, "size" := Int(size), "content_type" := contentType];
            Returned(Some(Post(apiUrl.value + "/process", payload)))
  }

  /** A missing bucket raises before anything else is looked at, whatever else the event holds. */
  lemma MissingBucketRaisesFirst(data: Dict, apiUrl: Option<string>, show: Value -> string)
    requires "bucket" !in data
    ensures ProcessGcsUpload(data, apiUrl, show) == Raised(KeyError("bucket"))
  {
  }

  /** The posted URI names the uploaded object: it splits back into the event's bucket and name. */
  lemma PostedUriNamesObject(data: Dict, apiUrl: Option<string>, show: Value -> string)
    requires ProcessGcsUpload(data, apiUrl, show).Returned?
    requires ProcessGcsUpload(data, apiUrl, show).post.Some?
    requires data["bucket"].Str? && '/' !in data["bucket"].s && data["name"].Str?
    ensures var payload := ProcessGcsUpload(data, apiUrl, show).post.value.payload;
            ParseGcsUri(payload["gcs_uri"].s) == Some((data["bucket"].s, data["name"].s))
  {
    GcsUriRoundTrip(data["bucket"].s, data["name"].s);
  }

  /** An event whose size is the decimal text of n posts size n. */
  lemma DecimalSizeIsPosted(data: Dict, apiUrl: Option<string>, show: Value -> string, n: int)
    requires RequiredKeys <= data.Keys && data["size"] == Str(Decimal.IntToString(n))
    requires TruthyText(apiUrl)
    ensures ProcessGcsUpload(data, apiUrl, show).Returned?
    ensures ProcessGcsUpload(data, apiUrl, show).post.value.payload["size"] == Int(n)
  {
    Decimal.ParseIntOfIntToString(n);
  }

  /** The upload of `f.pdf` into bucket `b`, with size 100, posts `gs://b/f.pdf` to the configured endpoint. */
  lemma UploadExample(apiUrl: string, show: Value -> string, created: Value)
    requires apiUrl != ""
    ensures var data := map["bucket" := Str("b"), "name" := Str("f.pdf"), "size" := Int(100), "timeCreated" := created];
            ProcessGcsUpload(data, Some(apiUrl), show)
            == Returned(Some(Post(apiUrl + "/process",
                                  map["gcs_uri" := Str("gs://b/f.pdf"), "name" := Str("f.pdf"),
                                      "size" := Int(100), "content_type" := Null])))
  {
    assert GcsUri("b", "f.pdf") == "gs://b/f.pdf";
  }

}
