/** enum_tools/aws_checks.py: S3 bucket candidates and the S3 reply classifier. */
module Aws {
  import opened Replies
  import opened Rules
  import opened Targets
  import Batch

  const S3Url := "s3.amazonaws.com"

  /** `print_s3_response`: 404, 200 and 403 are decided on the status code
      before the rate-limit phrase is looked at. */
  function S3Response(reply: Reply): (o: Outcome)
    ensures reply.status == 404 ==> o == Nothing
    ensures reply.status == 200 ==> o == Finding("", "OPEN S3 BUCKET", None, reply.url, Some(reply.url))
    ensures reply.status == 403 ==> o == Finding("", "Protected S3 Bucket", None, reply.url, None)
    ensures o == Breakout <==> reply.status !in {404, 200, 403} && Contains(reply.reason, "Slow Down")
    ensures o == Unknown <==> reply.status !in {404, 200, 403} && !Contains(reply.reason, "Slow Down")
    ensures !o.Fault?
  {
    if reply.status == 404 then Nothing
    else if reply.status == 200 then Finding("", "OPEN S3 BUCKET", None, reply.url, Some(reply.url))
    else if reply.status == 403 then Finding("", "Protected S3 Bucket", None, reply.url, None)
    else if Contains(reply.reason, "Slow Down") then Breakout
    else Unknown
  }

  /** The same decisions as a signature table. */
  const S3Rules: seq<Rule> := [
    Rule(CodesIn({404}), "", "", Absent),
    Rule(CodesIn({200}), "", "", Report("", "OPEN S3 BUCKET", None, false, Some(""))),
    Rule(CodesIn({403}), "", "", Report("", "Protected S3 Bucket", None, false, None)),
    Rule(AnyCode, "Slow Down", "", Stop)
  ]

  lemma S3ResponseIsTable(reply: Reply)
    ensures S3Response(reply) == Classify(S3Rules, reply)
  {
    assert Contains(reply.reason, "") && Contains(reply.url, "");
    assert reply.url + "" == reply.url;
    var first := if reply.status == 404 then 0
      else if reply.status == 200 then 1
      else if reply.status == 403 then 2
      else if Contains(reply.reason, "Slow Down") then 3
      else 4;
    FirstMatchDecides(S3Rules, reply, first);
  }

  /** `check_s3_buckets`: every name becomes `name.s3.amazonaws.com`, unfiltered
      and in order, and the list goes to the batch engine over plain HTTP. */
  method CheckS3Buckets(names: seq<string>, threads: nat, fetch: string -> Option<Reply>)
    returns (candidates: seq<string>, run: Batch.Run)
    requires threads >= 1
    ensures candidates == Wrap(names, "", "." + S3Url)
    ensures |candidates| == |names|
    ensures run == Batch.UrlBatch(candidates, false, S3Response, threads, fetch)
  {
    candidates := DecorateAll(names, "", "." + S3Url);
    run := Batch.GetUrlBatch(candidates, false, S3Response, threads, fetch);
  }

  /** A rate-limit reply stops the whole check; nothing after it is classified. */
  lemma S3StopsOnRateLimit(names: seq<string>, threads: nat, fetch: string -> Option<Reply>)
    requires threads >= 1
    ensures var run := Batch.UrlBatch(Wrap(names, "", "." + S3Url), false, S3Response, threads, fetch);
      run.stopped <==> run.calls != [] && run.calls[|run.calls| - 1].outcome == Breakout
  {
    Batch.UrlBatchFacts(Wrap(names, "", "." + S3Url), false, S3Response, threads, fetch);
  }
}
