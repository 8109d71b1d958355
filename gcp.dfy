/** enum_tools/gcp_checks.py: Google bucket candidates and the bucket reply classifier. */
module Gcp {
  import opened Replies
  import opened Rules
  import opened Targets
  import Batch

  const GcpUrl := "storage.googleapis.com"

  /** `print_bucket_response`: decided by the status code alone. It has no
      return statement, so it never asks the engine to stop. */
  function BucketResponse(reply: Reply): (o: Outcome)
    ensures reply.status == 404 ==> o == Nothing
    ensures reply.status == 200 ==> o == Finding("", "OPEN GOOGLE BUCKET", None, reply.url, None)
    ensures reply.status == 403 ==> o == Finding("", "Protected Google Bucket", None, reply.url, None)
    ensures o == Unknown <==> reply.status !in {404, 200, 403}
    ensures !Stops(o)
  {
    if reply.status == 404 then Nothing
    else if reply.status == 200 then Finding("", "OPEN GOOGLE BUCKET", None, reply.url, None)
    else if reply.status == 403 then Finding("", "Protected Google Bucket", None, reply.url, None)
    else Unknown
  }

  const BucketRules: seq<Rule> := [
    Rule(CodesIn({404}), "", "", Absent),
    Rule(CodesIn({200}), "", "", Report("", "OPEN GOOGLE BUCKET", None, false, None)),
    Rule(CodesIn({403}), "", "", Report("", "Protected Google Bucket", None, false, None))
  ]

  lemma BucketResponseIsTable(reply: Reply)
    ensures BucketResponse(reply) == Classify(BucketRules, reply)
  {
    assert Contains(reply.reason, "") && Contains(reply.url, "");
    var first := if reply.status == 404 then 0
      else if reply.status == 200 then 1
      else if reply.status == 403 then 2
      else 3;
    FirstMatchDecides(BucketRules, reply, first);
  }

  /** `check_gcp_buckets`: every name becomes `storage.googleapis.com/name`, in order. */
  method CheckGcpBuckets(names: seq<string>, threads: nat, fetch: string -> Option<Reply>)
    returns (candidates: seq<string>, run: Batch.Run)
    requires threads >= 1
    ensures candidates == Wrap(names, GcpUrl + "/", "")
    ensures |candidates| == |names|
    ensures run == Batch.UrlBatch(candidates, false, BucketResponse, threads, fetch)
  {
    candidates := DecorateAll(names, GcpUrl + "/", "");
    run := Batch.GetUrlBatch(candidates, false, BucketResponse, threads, fetch);
  }

  /** The bucket classifier never answers `Breakout`, so the run is never
      cut short. */
  lemma BucketRunNeverStops(names: seq<string>, threads: nat, fetch: string -> Option<Reply>)
    requires threads >= 1
    ensures !Batch.UrlBatch(Wrap(names, GcpUrl + "/", ""), false, BucketResponse, threads, fetch).stopped
  {
    Batch.UrlBatchFacts(Wrap(names, GcpUrl + "/", ""), false, BucketResponse, threads, fetch);
  }
}
