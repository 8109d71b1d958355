/** cloud_enum/azure_checks.py: the package version of the Azure checks, with
    storage accounts, container brute force and websites. Its classifiers only
    print coloured lines, so their findings carry no key and no access level. */
module CloudEnumAzure {
  import opened Seqs
  import opened Replies
  import opened Rules
  import opened Targets
  import Batch

  const BlobUrl := "blob.core.windows.net"
  const WebappUrl := "azurewebsites.net"

  const AccountDisabled := "The specified account is disabled"
  const QueryValue := "Value for one of the query"
  const HttpsOnly := "The account being accessed"
  const NotAuthorized := "not authorized to perform this operation"
  const OutOfRange := "One of the request inputs is out of range"

  /** The DNS helper is called without a thread count and takes its default. */
  const DnsThreads := 5

  /** `print_account_response`: 404 first, then the phrases in order. */
  function AccountResponse(reply: Reply): (o: Outcome)
    ensures reply.status == 404 ==> o == Nothing
    ensures reply.status != 404 && Contains(reply.reason, AccountDisabled) ==>
      o == Finding("", "Disabled Storage Account", None, reply.url, None)
    ensures reply.status != 404 && !Contains(reply.reason, AccountDisabled) && Contains(reply.reason, QueryValue) ==>
      o == Finding("", "HTTP-OK Storage Account", None, reply.url, None)
    ensures (reply.status != 404 && !Contains(reply.reason, AccountDisabled) && !Contains(reply.reason, QueryValue)
             && Contains(reply.reason, HttpsOnly)) ==> o == Finding("", "HTTPS-Only Storage Account", None, reply.url, None)
    ensures o == Unknown <==> (reply.status != 404 && !Contains(reply.reason, AccountDisabled)
                               && !Contains(reply.reason, QueryValue) && !Contains(reply.reason, HttpsOnly))
    ensures !Stops(o)
  {
    if reply.status == 404 then Nothing
    else if Contains(reply.reason, AccountDisabled) then Finding("", "Disabled Storage Account", None, reply.url, None)
    else if Contains(reply.reason, QueryValue) then Finding("", "HTTP-OK Storage Account", None, reply.url, None)
    else if Contains(reply.reason, HttpsOnly) then Finding("", "HTTPS-Only Storage Account", None, reply.url, None)
    else Unknown
  }

  const AccountRules: seq<Rule> := [
    Rule(CodesIn({404}), "", "", Absent),
    Rule(AnyCode, AccountDisabled, "", Report("", "Disabled Storage Account", None, false, None)),
    Rule(AnyCode, QueryValue, "", Report("", "HTTP-OK Storage Account", None, false, None)),
    Rule(AnyCode, HttpsOnly, "", Report("", "HTTPS-Only Storage Account", None, false, None))
  ]

  lemma AccountResponseIsTable(reply: Reply)
    ensures AccountResponse(reply) == Classify(AccountRules, reply)
  {
    assert Contains(reply.reason, "") && Contains(reply.url, "");
    var first := if reply.status == 404 then 0
      else if Contains(reply.reason, AccountDisabled) then 1
      else if Contains(reply.reason, QueryValue) then 2
      else if Contains(reply.reason, HttpsOnly) then 3
      else 4;
    FirstMatchDecides(AccountRules, reply, first);
  }

  /** `print_container_response`: the two give-up phrases come before the status code. */
  function ContainerResponse(reply: Reply): (o: Outcome)
    ensures o == Breakout <==> Contains(reply.reason, AccountDisabled) || Contains(reply.reason, NotAuthorized)
    ensures !Contains(reply.reason, AccountDisabled) && !Contains(reply.reason, NotAuthorized) ==>
      && (reply.status == 404 ==> o == Nothing)
      && (reply.status == 200 ==> o == Finding("", "OPEN AZURE CONTAINER", None, reply.url, None))
      && (o == Unknown <==> reply.status !in {404, 200} && !Contains(reply.reason, OutOfRange))
    ensures !o.Fault?
  {
    if Contains(reply.reason, AccountDisabled) then Breakout
    else if Contains(reply.reason, NotAuthorized) then Breakout
    else if reply.status == 404 then Nothing
    else if reply.status == 200 then Finding("", "OPEN AZURE CONTAINER", None, reply.url, None)
    else if Contains(reply.reason, OutOfRange) then Nothing
    else Unknown
  }

  const ContainerRules: seq<Rule> := [
    Rule(AnyCode, AccountDisabled, "", Stop),
    Rule(AnyCode, NotAuthorized, "", Stop),
    Rule(CodesIn({404}), "", "", Absent),
    Rule(CodesIn({200}), "", "", Report("", "OPEN AZURE CONTAINER", None, false, None)),
    Rule(AnyCode, OutOfRange, "", Absent)
  ]

  lemma ContainerResponseIsTable(reply: Reply)
    ensures ContainerResponse(reply) == Classify(ContainerRules, reply)
  {
    assert Contains(reply.reason, "") && Contains(reply.url, "");
    var first := if Contains(reply.reason, AccountDisabled) then 0
      else if Contains(reply.reason, NotAuthorized) then 1
      else if reply.status == 404 then 2
      else if reply.status == 200 then 3
      else if Contains(reply.reason, OutOfRange) then 4
      else 5;
    FirstMatchDecides(ContainerRules, reply, first);
  }

  /** `check_storage_accounts`: letters-and-digits names become
      `name.blob.core.windows.net`; the resolved ones are probed over HTTP and
      returned as resolved, duplicates included. */
  method CheckStorageAccounts(names: seq<string>, threads: nat, resolves: string -> bool,
                              fetch: string -> Option<Reply>)
    returns (candidates: seq<string>, validNames: seq<string>, run: Batch.Run)
    requires threads >= 1
    ensures candidates == Wrap(Filter(names, AllAsciiAlnum), "", "." + BlobUrl)
    ensures validNames == Filter(candidates, n => Batch.Kept(resolves, n))
    ensures run == Batch.UrlBatch(validNames, false, AccountResponse, threads, fetch)
  {
    candidates := Decorate(names, "", "." + BlobUrl, AllAsciiAlnum);
    var reported, progress;
    validNames, reported, progress := Batch.FastDnsLookup(candidates, resolves, false, DnsThreads);
    run := Batch.GetUrlBatch(validNames, false, AccountResponse, threads, fetch);
  }

  const ContainerQuery := "/?restype=container&comp=list"

  /** `brute_force_containers`: accounts in the outer loop, container names in
      the inner one, one HTTPS batch run per account. */
  method BruteForceContainers(storageAccounts: seq<string>, names: seq<string>, threads: nat,
                              fetch: string -> Option<Reply>)
    returns (urls: seq<seq<string>>, runs: seq<Batch.Run>)
    requires threads >= 1
    ensures |urls| == |storageAccounts| == |runs|
    ensures forall k | 0 <= k < |urls| :: urls[k] == Wrap(names, storageAccounts[k] + "/", ContainerQuery)
    ensures forall k | 0 <= k < |runs| :: runs[k] == Batch.UrlBatch(urls[k], true, ContainerResponse, threads, fetch)
  {
    urls, runs := [], [];
    for k := 0 to |storageAccounts|
      invariant |urls| == k == |runs|
      invariant forall j | 0 <= j < k :: urls[j] == Wrap(names, storageAccounts[j] + "/", ContainerQuery)
      invariant forall j | 0 <= j < k :: runs[j] == Batch.UrlBatch(urls[j], true, ContainerResponse, threads, fetch)
    {
      var candidates := DecorateAll(names, storageAccounts[k] + "/", ContainerQuery);
      var run := Batch.GetUrlBatch(candidates, true, ContainerResponse, threads, fetch);
      urls := urls + [candidates];
      runs := runs + [run];
    }
  }

  /** All the URLs, in request order: |accounts| * |names| of them, and the one
      at position i * |names| + j asks account i for container name j. */
  lemma ContainerUrlOrder(accounts: seq<string>, names: seq<string>, urls: seq<seq<string>>, i: nat, j: nat)
    requires |urls| == |accounts|
    requires forall k | 0 <= k < |urls| :: urls[k] == Wrap(names, accounts[k] + "/", ContainerQuery)
    requires i < |accounts| && j < |names|
    ensures |Flatten(urls)| == |accounts| * |names|
    ensures i * |names| + j < |Flatten(urls)| && Flatten(urls)[i * |names| + j] == accounts[i] + "/" + names[j] + ContainerQuery
  {
    forall k | 0 <= k < |urls|
      ensures |urls[k]| == |names|
    {
      assert urls[k] == Wrap(names, accounts[k] + "/", ContainerQuery);
    }
    FlattenUniformLength(urls, |names|);
    FlattenUniformIndex(urls, |names|, i, j);
    assert urls[i][j] == accounts[i] + "/" + names[j] + ContainerQuery;
  }

  /** `check_azure_websites`: `name.azurewebsites.net` for every name; every
      name that resolves is passed to the callback. */
  method CheckAzureWebsites(names: seq<string>, resolves: string -> bool)
    returns (candidates: seq<string>, registered: seq<string>)
    ensures candidates == Wrap(names, "", "." + WebappUrl)
    ensures registered == Filter(candidates, n => Batch.Kept(resolves, n))
  {
    candidates := Wrap(names, "", "." + WebappUrl);
    var validNames, progress;
    validNames, registered, progress := Batch.FastDnsLookup(candidates, resolves, true, DnsThreads);
  }

  /** `run_all`: the container brute force runs only when some account resolved;
      the website check runs in any case. */
  method RunAll(names: seq<string>, bruteNames: seq<string>, threads: nat,
                resolves: string -> bool, fetch: string -> Option<Reply>)
    returns (validAccounts: seq<string>, bruteForced: bool, containerRuns: seq<Batch.Run>, websites: seq<string>)
    requires threads >= 1
    ensures validAccounts == Filter(Wrap(Filter(names, AllAsciiAlnum), "", "." + BlobUrl), n => Batch.Kept(resolves, n))
    ensures bruteForced <==> validAccounts != []
    ensures |containerRuns| == |validAccounts|
    ensures forall k | 0 <= k < |containerRuns| ::
      containerRuns[k] == Batch.UrlBatch(Wrap(bruteNames, validAccounts[k] + "/", ContainerQuery), true, ContainerResponse, threads, fetch)
    ensures websites == Filter(Wrap(names, "", "." + WebappUrl), n => Batch.Kept(resolves, n))
  {
    var candidates, storageRun, urls;
    candidates, validAccounts, storageRun := CheckStorageAccounts(names, threads, resolves, fetch);
    bruteForced := false;
    containerRuns := [];
    if validAccounts != [] {
      urls, containerRuns := BruteForceContainers(validAccounts, bruteNames, threads, fetch);
      bruteForced := true;
    }
    var websiteNames;
    websiteNames, websites := CheckAzureWebsites(names, resolves);
  }
}
