/** archived_old_code/enum_tools/gcp_checks.py: the earlier Google module with
    buckets, Firebase realtime databases, App Engine apps and the two-phase
    Cloud Functions scan. */
module GcpArchived {
  import opened Seqs
  import opened Replies
  import opened Rules
  import opened Targets
  import Batch

  const GcpUrl := "storage.googleapis.com"
  const FbrtdbUrl := "firebaseio.com"
  const AppspotUrl := "appspot.com"
  const FuncUrl := "cloudfunctions.net"

  /** `print_bucket_response`: an open bucket is listed at its URL plus '/'. */
  function BucketResponse(reply: Reply): (o: Outcome)
    ensures reply.status == 404 ==> o == Nothing
    ensures reply.status == 200 ==>
      o == Finding("", "OPEN GOOGLE BUCKET", Some(Public), reply.url, Some(reply.url + "/"))
    ensures reply.status == 403 ==> o == Finding("", "Protected Google Bucket", Some(Protected), reply.url, None)
    ensures o == Unknown <==> reply.status !in {404, 200, 403}
    ensures !Stops(o)
  {
    if reply.status == 404 then Nothing
    else if reply.status == 200 then
      Finding("", "OPEN GOOGLE BUCKET", Some(Public), reply.url, Some(reply.url + "/"))
    else if reply.status == 403 then Finding("", "Protected Google Bucket", Some(Protected), reply.url, None)
    else Unknown
  }

  const BucketRules: seq<Rule> := [
    Rule(CodesIn({404}), "", "", Absent),
    Rule(CodesIn({200}), "", "", Report("", "OPEN GOOGLE BUCKET", Some(Public), false, Some("/"))),
    Rule(CodesIn({403}), "", "", Report("", "Protected Google Bucket", Some(Protected), false, None))
  ]

  lemma BucketResponseIsTable(reply: Reply)
    ensures BucketResponse(reply) == Classify(BucketRules, reply)
  {
    assert Contains(reply.reason, "") && Contains(reply.url, "");
    var first := if reply.status == 404 then 0
      else if reply.status == 200 then 1
      else if reply.status == 403 then 2
      else 3;
    FirstMatchDecides(BucketRules, reply, first);
  }

  /** `print_fbrtdb_response`: decided by the status code alone. */
  function FbrtdbResponse(reply: Reply): (o: Outcome)
    ensures reply.status == 404 ==> o == Nothing
    ensures reply.status == 200 ==> o == Finding("", "OPEN GOOGLE FIREBASE RTDB", Some(Public), reply.url, None)
    ensures reply.status == 401 ==> o == Finding("", "Protected Google Firebase RTDB", Some(Protected), reply.url, None)
    ensures reply.status in {402, 423} <==> o.Finding? && o.access == Some(Disabled)
    ensures o == Unknown <==> reply.status !in {404, 200, 401, 402, 423}
    ensures !Stops(o)
  {
    if reply.status == 404 then Nothing
    else if reply.status == 200 then Finding("", "OPEN GOOGLE FIREBASE RTDB", Some(Public), reply.url, None)
    else if reply.status == 401 then Finding("", "Protected Google Firebase RTDB", Some(Protected), reply.url, None)
    else if reply.status == 402 then
      Finding("", "Payment required on Google Firebase RTDB", Some(Disabled), reply.url, None)
    else if reply.status == 423 then
      Finding("", "The Firebase database has been deactivated.", Some(Disabled), reply.url, None)
    else Unknown
  }

  const FbrtdbRules: seq<Rule> := [
    Rule(CodesIn({404}), "", "", Absent),
    Rule(CodesIn({200}), "", "", Report("", "OPEN GOOGLE FIREBASE RTDB", Some(Public), false, None)),
    Rule(CodesIn({401}), "", "", Report("", "Protected Google Firebase RTDB", Some(Protected), false, None)),
    Rule(CodesIn({402}), "", "", Report("", "Payment required on Google Firebase RTDB", Some(Disabled), false, None)),
    Rule(CodesIn({423}), "", "", Report("", "The Firebase database has been deactivated.", Some(Disabled), false, None))
  ]

  lemma FbrtdbResponseIsTable(reply: Reply)
    ensures FbrtdbResponse(reply) == Classify(FbrtdbRules, reply)
  {
    assert Contains(reply.reason, "") && Contains(reply.url, "");
    var first := if reply.status == 404 then 0
      else if reply.status == 200 then 1
      else if reply.status == 401 then 2
      else if reply.status == 402 then 3
      else if reply.status == 423 then 4
      else 5;
    FirstMatchDecides(FbrtdbRules, reply, first);
  }

  const GoogleLogin := "accounts.google.com"

  /** `print_appspot_response`. Its 50x branch compares the first character of
      the status text with the integer 5, which Python answers with False, so
      a 50x reply falls through to the unknown diagnostic. A redirect to the
      Google login is reported at the first URL of the redirect history,
      which raises when there is none. */
  function AppspotResponse(reply: Reply): (o: Outcome)
    ensures reply.status == 404 ==> o == Nothing
    ensures 500 <= reply.status < 600 ==> o == Unknown
    ensures o == Unknown <==> reply.status !in {404, 200, 302}
    ensures reply.status in {200, 302} && !Contains(reply.url, GoogleLogin) ==>
      o == Finding("", "Open Google App Engine app", Some(Public), reply.url, None)
    ensures reply.status in {200, 302} && Contains(reply.url, GoogleLogin) && reply.history != [] ==>
      o == Finding("", "Protected Google App Engine app", Some(Protected), reply.history[0], None)
    ensures o == Fault <==> reply.status in {200, 302} && Contains(reply.url, GoogleLogin) && reply.history == []
    ensures !o.Breakout?
  {
    if reply.status == 404 then Nothing
    else if reply.status in {200, 302, 404} then
      if Contains(reply.url, GoogleLogin) then
        if reply.history == [] then Fault
        else Finding("", "Protected Google App Engine app", Some(Protected), reply.history[0], None)
      else Finding("", "Open Google App Engine app", Some(Public), reply.url, None)
    else Unknown
  }

  const AppspotRules: seq<Rule> := [
    Rule(CodesIn({404}), "", "", Absent),
    Rule(CodesIn({200, 302, 404}), "", GoogleLogin, Report("", "Protected Google App Engine app", Some(Protected), true, None)),
    Rule(CodesIn({200, 302, 404}), "", "", Report("", "Open Google App Engine app", Some(Public), false, None))
  ]

  lemma AppspotResponseIsTable(reply: Reply)
    ensures AppspotResponse(reply) == Classify(AppspotRules, reply)
  {
    assert Contains(reply.reason, "") && Contains(reply.url, "");
    var first := if reply.status == 404 then 0
      else if reply.status in {200, 302} && Contains(reply.url, GoogleLogin) then 1
      else if reply.status in {200, 302} then 2
      else 3;
    FirstMatchDecides(AppspotRules, reply, first);
  }

  const FunctionsMsg := "Contains at least 1 Cloud Function"

  /** `print_functions_response1`: a 302 marks a region and project with functions. */
  function Functions1Response(reply: Reply): (o: Outcome)
    ensures reply.status == 404 ==> o == Nothing
    ensures reply.status == 302 <==> o == Finding("", FunctionsMsg, Some(Public), reply.url, None)
    ensures o == Unknown <==> reply.status !in {404, 302}
    ensures !Stops(o)
  {
    if reply.status == 404 then Nothing
    else if reply.status == 302 then Finding("", FunctionsMsg, Some(Public), reply.url, None)
    else Unknown
  }

  const Functions1Rules: seq<Rule> := [
    Rule(CodesIn({404}), "", "", Absent),
    Rule(CodesIn({302}), "", "", Report("", FunctionsMsg, Some(Public), false, None))
  ]

  lemma Functions1ResponseIsTable(reply: Reply)
    ensures Functions1Response(reply) == Classify(Functions1Rules, reply)
  {
    assert Contains(reply.reason, "") && Contains(reply.url, "");
    var first := if reply.status == 404 then 0 else if reply.status == 302 then 1 else 2;
    FirstMatchDecides(Functions1Rules, reply, first);
  }

  const ServiceLogin := "accounts.google.com/ServiceLogin"

  /** `print_functions_response2`: a redirect to the login page is ignored
      whatever the status; otherwise the status code decides. */
  function Functions2Response(reply: Reply): (o: Outcome)
    ensures Contains(reply.url, ServiceLogin) ==> o == Nothing
    ensures !Contains(reply.url, ServiceLogin) && reply.status in {403, 401} ==>
      o == Finding("", "Auth required Cloud Function", Some(Protected), reply.url, None)
    ensures !Contains(reply.url, ServiceLogin) && reply.status == 405 ==>
      o == Finding("", "UNAUTHENTICATED Cloud Function (POST-Only)", Some(Public), reply.url, None)
    ensures !Contains(reply.url, ServiceLogin) && reply.status in {200, 404} ==>
      o == Finding("", "UNAUTHENTICATED Cloud Function (GET-OK)", Some(Public), reply.url, None)
    ensures o == Unknown <==> !Contains(reply.url, ServiceLogin) && reply.status !in {403, 401, 405, 200, 404}
    ensures !Stops(o)
  {
    if Contains(reply.url, ServiceLogin) then Nothing
    else if reply.status in {403, 401} then Finding("", "Auth required Cloud Function", Some(Protected), reply.url, None)
    else if reply.status == 405 then
      Finding("", "UNAUTHENTICATED Cloud Function (POST-Only)", Some(Public), reply.url, None)
    else if reply.status in {200, 404} then
      Finding("", "UNAUTHENTICATED Cloud Function (GET-OK)", Some(Public), reply.url, None)
    else Unknown
  }

  const Functions2Rules: seq<Rule> := [
    Rule(AnyCode, "", ServiceLogin, Absent),
    Rule(CodesIn({403, 401}), "", "", Report("", "Auth required Cloud Function", Some(Protected), false, None)),
    Rule(CodesIn({405}), "", "", Report("", "UNAUTHENTICATED Cloud Function (POST-Only)", Some(Public), false, None)),
    Rule(CodesIn({200, 404}), "", "", Report("", "UNAUTHENTICATED Cloud Function (GET-OK)", Some(Public), false, None))
  ]

  lemma Functions2ResponseIsTable(reply: Reply)
    ensures Functions2Response(reply) == Classify(Functions2Rules, reply)
  {
    assert Contains(reply.reason, "") && Contains(reply.url, "");
    var first := if Contains(reply.url, ServiceLogin) then 0
      else if reply.status in {403, 401} then 1
      else if reply.status == 405 then 2
      else if reply.status in {200, 404} then 3
      else 4;
    FirstMatchDecides(Functions2Rules, reply, first);
  }

  /** `check_gcp_buckets`: `storage.googleapis.com/name` for every name. */
  method CheckGcpBuckets(names: seq<string>, threads: nat, fetch: string -> Option<Reply>)
    returns (candidates: seq<string>, run: Batch.Run)
    requires threads >= 1
    ensures candidates == Wrap(names, GcpUrl + "/", "")
    ensures run == Batch.UrlBatch(candidates, false, BucketResponse, threads, fetch)
  {
    candidates := DecorateAll(names, GcpUrl + "/", "");
    run := Batch.GetUrlBatch(candidates, false, BucketResponse, threads, fetch);
  }

  /** `check_fbrtdb`: names with a dot are skipped; the rest become
      `name.firebaseio.com/.json`, probed over HTTPS. */
  method CheckFbrtdb(names: seq<string>, threads: nat, fetch: string -> Option<Reply>)
    returns (candidates: seq<string>, run: Batch.Run)
    requires threads >= 1
    ensures candidates == Wrap(Filter(names, NoDot), "", "." + FbrtdbUrl + "/.json")
    ensures run == Batch.UrlBatch(candidates, true, FbrtdbResponse, threads, fetch)
  {
    candidates := Decorate(names, "", "." + FbrtdbUrl + "/.json", NoDot);
    run := Batch.GetUrlBatch(candidates, true, FbrtdbResponse, threads, fetch);
  }

  /** `check_appspot`: names with a dot are skipped; the rest become `name.appspot.com`. */
  method CheckAppspot(names: seq<string>, threads: nat, fetch: string -> Option<Reply>)
    returns (candidates: seq<string>, run: Batch.Run)
    requires threads >= 1
    ensures candidates == Wrap(Filter(names, NoDot), "", "." + AppspotUrl)
    ensures run == Batch.UrlBatch(candidates, false, AppspotResponse, threads, fetch)
  {
    candidates := Decorate(names, "", "." + AppspotUrl, NoDot);
    run := Batch.GetUrlBatch(candidates, false, AppspotResponse, threads, fetch);
  }

  /** A dotted name never becomes a Firebase or App Engine candidate. */
  lemma DottedNamesSkipped(names: seq<string>, name: string, post: string)
    requires !NoDot(name)
    ensures "" + name + post !in Wrap(Filter(names, NoDot), "", post)
  {
    FilterMembership(names, NoDot, name);
    WrapMembership(Filter(names, NoDot), "", post, name);
  }

  // The two-phase Cloud Functions scan

  /** Python's `s.replace(pat, "")`: occurrences are removed left to right
      and do not overlap. */
  function RemoveAll(s: string, pat: string): string
    requires pat != ""
    decreases |s|
  {
    if |s| < |pat| then s
    else if s[..|pat|] == pat then RemoveAll(s[|pat|..], pat)
    else [s[0]] + RemoveAll(s[1..], pat)
  }

  /** A string without the pattern comes back unchanged. */
  lemma {:induction false} RemoveAllAbsent(s: string, pat: string)
    requires pat != ""
    requires !Contains(s, pat)
    ensures RemoveAll(s, pat) == s
    decreases |s|
  {
    if |s| >= |pat| {
      RemoveAllAbsent(s[1..], pat);
      assert [s[0]] + s[1..] == s;
    }
  }

  /** Stripping the scheme from `http://host/` gives `host/`. */
  lemma StripScheme(host: string)
    requires !Contains(host, "http://")
    ensures RemoveAll("http://" + host, "http://") == host
  {
    var s := "http://" + host;
    assert s[..7] == "http://" && s[7..] == host;
    RemoveAllAbsent(host, "http://");
  }

  /** Removal is a single pass: removing one occurrence can join two halves
      into a new one, which stays. */
  lemma RemoveAllSinglePass()
    ensures RemoveAll("hthttp://tp://", "http://") == "http://"
  {
    var s := "hthttp://tp://";
    assert s[..7][2] == 'h' != "http://"[2];
    assert s[1..][..7][0] == 't' != "http://"[0];
    assert s[2..] == "http://tp://";
    assert s[2..][..7] == "http://" && s[2..][7..] == "tp://";
    assert RemoveAll("tp://", "http://") == "tp://";
    assert RemoveAll(s[2..], "http://") == "tp://";
    assert RemoveAll(s[1..], "http://") == "t" + "tp://";
    assert RemoveAll(s, "http://") == "h" + ("t" + "tp://");
  }

  /** What `print_functions_response1` appends to HAS_FUNCS while a run is
      delivered: the URL of every 302 reply, in delivery order. */
  function FunctionHosts(calls: seq<Batch.Call>): seq<string> {
    if calls == [] then []
    else
      var last := calls[|calls| - 1];
      FunctionHosts(calls[..|calls| - 1]) + (if last.reply.status == 302 then [last.reply.url] else [])
  }

  /** Every recorded host is the URL of a delivered 302, and every delivered 302 is recorded. */
  lemma {:induction false} FunctionHostsAre(calls: seq<Batch.Call>, u: string)
    ensures u in FunctionHosts(calls) <==> exists c | c in calls :: c.reply.status == 302 && c.reply.url == u
  {
    if calls != [] {
      var init := calls[..|calls| - 1];
      FunctionHostsAre(init, u);
      assert calls == init + [calls[|calls| - 1]];
    }
  }

  /** The state after `check_functions`; `Unbound` when the region list is
      empty and `candidates` is used before any assignment. */
  datatype FunctionsScan =
    | Unbound
    | Scanned(candidates: seq<string>, first: Batch.Run, hasFuncs: seq<string>,
              bruted: seq<seq<string>>, runs: seq<Batch.Run>)

  /** `check_functions`. The region loop only reassigns `candidates`, so only
      the last region is probed. HAS_FUNCS starts as `hasFuncs0` (it is module
      state). A quick scan or an empty HAS_FUNCS ends after the first phase;
      otherwise every recorded host, scheme removed, is brute forced with
      `host + name + '/'`. */
  method CheckFunctions(names: seq<string>, bruteStrings: seq<string>, quickscan: bool, threads: nat,
                        regions: seq<string>, hasFuncs0: seq<string>, fetch: string -> Option<Reply>)
    returns (scan: FunctionsScan)
    requires threads >= 1
    ensures scan == Unbound <==> regions == []
    ensures scan.Scanned? ==>
      && scan.candidates == Wrap(names, regions[|regions| - 1] + "-", "." + FuncUrl)
      && scan.first == Batch.UrlBatch(scan.candidates, false, Functions1Response, threads, fetch)
      && scan.hasFuncs == hasFuncs0 + FunctionHosts(scan.first.calls)
      && FoundByRedirect(FunctionHosts(scan.first.calls), scan.first.calls, scan.candidates)
      && |scan.bruted| == |scan.runs| == (if scan.hasFuncs == [] || quickscan then 0 else |scan.hasFuncs|)
      && (forall k | 0 <= k < |scan.bruted| ::
            scan.bruted[k] == Wrap(bruteStrings, RemoveAll(scan.hasFuncs[k], "http://"), "/"))
      && (forall k | 0 <= k < |scan.runs| ::
            scan.runs[k] == Batch.UrlBatch(scan.bruted[k], false, Functions2Response, threads, fetch))
  {
    var candidates: seq<string> := [];
    var bound := false;
    for k := 0 to |regions|
      invariant bound <==> k > 0
      invariant k > 0 ==> candidates == Wrap(names, regions[k - 1] + "-", "." + FuncUrl)
    {
      candidates := Wrap(names, regions[k] + "-", "." + FuncUrl);
      bound := true;
    }
    if !bound {
      return Unbound;
    }
    var first := Batch.GetUrlBatch(candidates, false, Functions1Response, threads, fetch);
    var hasFuncs := hasFuncs0 + FunctionHosts(first.calls);
    BrutedHostsWereFound(candidates, threads, fetch);
    var bruted: seq<seq<string>> := [];
    var runs: seq<Batch.Run> := [];
    if hasFuncs != [] && !quickscan {
      bruted, runs := BruteFunctions(hasFuncs, bruteStrings, threads, fetch);
    }
    scan := Scanned(candidates, first, hasFuncs, bruted, runs);
  }

  /** The second phase: for each recorded host, scheme removed, one batch over
      `host + name + '/'` for every brute-force name. */
  method BruteFunctions(hasFuncs: seq<string>, bruteStrings: seq<string>, threads: nat,
                        fetch: string -> Option<Reply>)
    returns (bruted: seq<seq<string>>, runs: seq<Batch.Run>)
    requires threads >= 1
    ensures |bruted| == |runs| == |hasFuncs|
    ensures forall k | 0 <= k < |bruted| :: bruted[k] == Wrap(bruteStrings, RemoveAll(hasFuncs[k], "http://"), "/")
    ensures forall k | 0 <= k < |runs| :: runs[k] == Batch.UrlBatch(bruted[k], false, Functions2Response, threads, fetch)
  {
    bruted, runs := [], [];
    for k := 0 to |hasFuncs|
      invariant |bruted| == k == |runs|
      invariant forall j | 0 <= j < k :: bruted[j] == Wrap(bruteStrings, RemoveAll(hasFuncs[j], "http://"), "/")
      invariant forall j | 0 <= j < k :: runs[j] == Batch.UrlBatch(bruted[j], false, Functions2Response, threads, fetch)
    {
      var func := RemoveAll(hasFuncs[k], "http://");
      var urls := Wrap(bruteStrings, func, "/");
      var run := Batch.GetUrlBatch(urls, false, Functions2Response, threads, fetch);
      bruted := bruted + [urls];
      runs := runs + [run];
    }
  }

  /** Every host in `hosts` is the final URL of a 302 reply to one of the
      candidates, and that reply was reported as a function finding. */
  predicate FoundByRedirect(hosts: seq<string>, calls: seq<Batch.Call>, candidates: seq<string>) {
    forall u | u in hosts :: exists c | c in calls ::
      && c.url in candidates && c.reply.status == 302 && c.reply.url == u
      && c.outcome == Finding("", FunctionsMsg, Some(Public), u, None)
  }

  /** Every host the first phase adds to HAS_FUNCS (and so every host the
      second phase brute forces, past those it already held) was found by a
      redirect. */
  lemma {:induction false} BrutedHostsWereFound(candidates: seq<string>, threads: nat, fetch: string -> Option<Reply>)
    requires threads >= 1
    ensures var run := Batch.UrlBatch(candidates, false, Functions1Response, threads, fetch);
      FoundByRedirect(FunctionHosts(run.calls), run.calls, candidates)
  {
    var run := Batch.UrlBatch(candidates, false, Functions1Response, threads, fetch);
    Batch.UrlBatchFacts(candidates, false, Functions1Response, threads, fetch);
    forall u | u in FunctionHosts(run.calls)
      ensures exists c | c in run.calls ::
        && c.url in candidates && c.reply.status == 302 && c.reply.url == u
        && c.outcome == Finding("", FunctionsMsg, Some(Public), u, None)
    {
      FunctionHostsAre(run.calls, u);
      var c :| c in run.calls && c.reply.status == 302 && c.reply.url == u;
      assert c.outcome == Functions1Response(c.reply);
    }
  }

}
