/** enum_tools/azure_checks.py: storage-style account checks, DNS-only
    checks, and the container brute force with its account pre-filter. */
module Azure {
  import opened Seqs
  import opened Replies
  import opened Rules
  import opened Targets
  import Batch

  const BlobUrl := "blob.core.windows.net"
  const FileUrl := "file.core.windows.net"
  const QueueUrl := "queue.core.windows.net"
  const TableUrl := "table.core.windows.net"
  const MgmtUrl := "scm.azurewebsites.net"
  const VaultUrl := "vault.azure.net"
  const WebappUrl := "azurewebsites.net"
  const DatabaseUrl := "database.windows.net"
  const VmUrl := "cloudapp.azure.com"

  const NotARepresentation := "The requested URI does not represent"
  const AuthFailed := "Server failed to authenticate the request"
  const AccountDisabled := "The specified account is disabled"
  const QueryValue := "Value for one of the query"
  const HttpsOnly := "The account being accessed"
  const Unauthorized := "Unauthorized"

  /** `print_account_response`. The phrases are tried in order and the first
      one found fixes the finding; 'Unauthorized' fills a record that is
      never emitted. */
  function AccountResponse(reply: Reply): (o: Outcome)
    ensures reply.status == 404 || Contains(reply.reason, NotARepresentation) ==> o == Nothing
    ensures o.Finding? ==> o.target == reply.url && o.listing == None
    ensures o.Finding? && o.key == "ACCOUNT_AUTH" <==>
      reply.status != 404 && !Contains(reply.reason, NotARepresentation) && Contains(reply.reason, AuthFailed)
    ensures o.Finding? && o.key == "ACCOUNT_DISABLED" <==>
      reply.status != 404 && !Contains(reply.reason, NotARepresentation) && !Contains(reply.reason, AuthFailed)
      && Contains(reply.reason, AccountDisabled)
    ensures o.Finding? && o.access == Some(Protected) ==> o.key == "ACCOUNT_AUTH"
    ensures o.Finding? && o.access == Some(Disabled) ==> o.key == "ACCOUNT_DISABLED"
    ensures o.Finding? && o.access == Some(Public) ==> o.key in {"ACCOUNT_HTTP_OK", "ACCOUNT_HTTPS_ONLY"}
    ensures (Contains(reply.reason, Unauthorized) && !Contains(reply.reason, AuthFailed) && !Contains(reply.reason, AccountDisabled)
             && !Contains(reply.reason, QueryValue) && !Contains(reply.reason, HttpsOnly)) ==> o == Nothing
    ensures !Stops(o)
  {
    if reply.status == 404 || Contains(reply.reason, NotARepresentation) then Nothing
    else if Contains(reply.reason, AuthFailed) then
      Finding("ACCOUNT_AUTH", "Auth-Only Account", Some(Protected), reply.url, None)
    else if Contains(reply.reason, AccountDisabled) then
      Finding("ACCOUNT_DISABLED", "Disabled Account", Some(Disabled), reply.url, None)
    else if Contains(reply.reason, QueryValue) then
      Finding("ACCOUNT_HTTP_OK", "HTTP-OK Account", Some(Public), reply.url, None)
    else if Contains(reply.reason, HttpsOnly) then
      Finding("ACCOUNT_HTTPS_ONLY", "HTTPS-Only Account", Some(Public), reply.url, None)
    else if Contains(reply.reason, Unauthorized) then Nothing
    else Unknown
  }

  const AccountRules: seq<Rule> := [
    Rule(CodesIn({404}), "", "", Absent),
    Rule(AnyCode, NotARepresentation, "", Absent),
    Rule(AnyCode, AuthFailed, "", Report("ACCOUNT_AUTH", "Auth-Only Account", Some(Protected), false, None)),
    Rule(AnyCode, AccountDisabled, "", Report("ACCOUNT_DISABLED", "Disabled Account", Some(Disabled), false, None)),
    Rule(AnyCode, QueryValue, "", Report("ACCOUNT_HTTP_OK", "HTTP-OK Account", Some(Public), false, None)),
    Rule(AnyCode, HttpsOnly, "", Report("ACCOUNT_HTTPS_ONLY", "HTTPS-Only Account", Some(Public), false, None)),
    Rule(AnyCode, Unauthorized, "", Absent)
  ]

  lemma AccountResponseIsTable(reply: Reply)
    ensures AccountResponse(reply) == Classify(AccountRules, reply)
  {
    assert Contains(reply.reason, "") && Contains(reply.url, "");
    var first := if reply.status == 404 then 0
      else if Contains(reply.reason, NotARepresentation) then 1
      else if Contains(reply.reason, AuthFailed) then 2
      else if Contains(reply.reason, AccountDisabled) then 3
      else if Contains(reply.reason, QueryValue) then 4
      else if Contains(reply.reason, HttpsOnly) then 5
      else if Contains(reply.reason, Unauthorized) then 6
      else 7;
    FirstMatchDecides(AccountRules, reply, first);
  }

  const ContainerAuthPhrases: seq<string> := [
    "not authorized to perform this operation",
    "not have sufficient permissions",
    "Public access is not permitted",
    AuthFailed
  ]
  const BlobApiUnsupported := "Blob API is not yet supported"
  const OutOfRange := "One of the request inputs is out of range"
  const InvalidUri := "The request URI is invalid"

  /** The reasons that make the container brute force give up on an account. */
  predicate ContainerGivesUp(reason: string) {
    || Contains(reason, AccountDisabled)
    || (exists k | 0 <= k < |ContainerAuthPhrases| :: Contains(reason, ContainerAuthPhrases[k]))
    || Contains(reason, BlobApiUnsupported)
  }

  /** `print_container_response`: the give-up phrases are looked at before the
      status code, so even a 200 with one of them breaks out. */
  function ContainerResponse(reply: Reply): (o: Outcome)
    ensures o == Breakout <==> ContainerGivesUp(reply.reason)
    ensures !ContainerGivesUp(reply.reason) && reply.status == 200 ==>
      o == Finding("CONTAINER_OPEN", "OPEN AZURE CONTAINER", Some(Public), reply.url, Some(reply.url))
    ensures !ContainerGivesUp(reply.reason) && reply.status == 404 ==> o == Nothing
    ensures o.Finding? ==> reply.status == 200
    ensures !o.Fault?
  {
    if Contains(reply.reason, AccountDisabled) then Breakout
    else if Contains(reply.reason, ContainerAuthPhrases[0]) || Contains(reply.reason, ContainerAuthPhrases[1])
         || Contains(reply.reason, ContainerAuthPhrases[2]) || Contains(reply.reason, ContainerAuthPhrases[3]) then Breakout
    else if Contains(reply.reason, BlobApiUnsupported) then Breakout
    else if reply.status == 404 then Nothing
    else if reply.status == 200 then
      Finding("CONTAINER_OPEN", "OPEN AZURE CONTAINER", Some(Public), reply.url, Some(reply.url))
    else if Contains(reply.reason, OutOfRange) then Nothing
    else if Contains(reply.reason, InvalidUri) then Nothing
    else Unknown
  }

  const ContainerRules: seq<Rule> := [
    Rule(AnyCode, AccountDisabled, "", Stop),
    Rule(AnyCode, ContainerAuthPhrases[0], "", Stop),
    Rule(AnyCode, ContainerAuthPhrases[1], "", Stop),
    Rule(AnyCode, ContainerAuthPhrases[2], "", Stop),
    Rule(AnyCode, ContainerAuthPhrases[3], "", Stop),
    Rule(AnyCode, BlobApiUnsupported, "", Stop),
    Rule(CodesIn({404}), "", "", Absent),
    Rule(CodesIn({200}), "", "", Report("CONTAINER_OPEN", "OPEN AZURE CONTAINER", Some(Public), false, Some(""))),
    Rule(AnyCode, OutOfRange, "", Absent),
    Rule(AnyCode, InvalidUri, "", Absent)
  ]

  lemma ContainerResponseIsTable(reply: Reply)
    ensures ContainerResponse(reply) == Classify(ContainerRules, reply)
  {
    assert Contains(reply.reason, "") && Contains(reply.url, "");
    assert reply.url + "" == reply.url;
    var r := reply.reason;
    var first := if Contains(r, AccountDisabled) then 0
      else if Contains(r, ContainerAuthPhrases[0]) then 1
      else if Contains(r, ContainerAuthPhrases[1]) then 2
      else if Contains(r, ContainerAuthPhrases[2]) then 3
      else if Contains(r, ContainerAuthPhrases[3]) then 4
      else if Contains(r, BlobApiUnsupported) then 5
      else if reply.status == 404 then 6
      else if reply.status == 200 then 7
      else if Contains(r, OutOfRange) then 8
      else if Contains(r, InvalidUri) then 9
      else 10;
    FirstMatchDecides(ContainerRules, reply, first);
  }

  /** The storage-style checks (`check_storage_accounts`, `check_file_accounts`,
      `check_queue_accounts`, `check_table_accounts`, `check_mgmt_accounts`,
      `check_vault_accounts`) differ only in the DNS suffix. Names with anything
      but ASCII letters and digits are skipped; the resolved names are probed
      over HTTP and returned de-duplicated, in no particular order. */
  method CheckAccounts(names: seq<string>, suffix: string, resolves: string -> bool,
                       fetch: string -> Option<Reply>, threads: nat)
    returns (candidates: seq<string>, validNames: seq<string>, run: Batch.Run, accounts: seq<string>)
    requires threads >= 1
    ensures candidates == Wrap(Filter(names, AllAsciiAlnum), "", "." + suffix)
    ensures validNames == Filter(candidates, n => Batch.Kept(resolves, n))
    ensures run == Batch.UrlBatch(validNames, false, AccountResponse, threads, fetch)
    ensures NoDups(accounts)
    ensures forall a :: a in accounts <==> a in validNames
  {
    candidates := Decorate(names, "", "." + suffix, AllAsciiAlnum);
    var reported, progress;
    validNames, reported, progress := Batch.FastDnsLookup(candidates, resolves, false, threads);
    run := Batch.GetUrlBatch(validNames, false, AccountResponse, threads, fetch);
    accounts := Dedup(validNames);
    DedupFacts(validNames);
  }

  /** A candidate of an account check is `name.suffix` for a name in the
      input made of letters and digits only; every such name gives one. */
  lemma AccountCandidates(names: seq<string>, suffix: string, name: string)
    ensures name + "." + suffix in Wrap(Filter(names, AllAsciiAlnum), "", "." + suffix)
      <==> name in names && AllAsciiAlnum(name)
  {
    WrapMembership(Filter(names, AllAsciiAlnum), "", "." + suffix, name);
    FilterMembership(names, AllAsciiAlnum, name);
    assert "" + name + ("." + suffix) == name + "." + suffix;
  }

  /** `check_azure_websites` and `check_azure_databases`: every name, unfiltered,
      gets the suffix; each name that resolves goes to the DNS callback. */
  method CheckDnsNames(names: seq<string>, suffix: string, resolves: string -> bool, threads: nat)
    returns (candidates: seq<string>, registered: seq<string>)
    requires threads >= 1
    ensures candidates == Wrap(names, "", "." + suffix)
    ensures registered == Filter(candidates, n => Batch.Kept(resolves, n))
  {
    candidates := Wrap(names, "", "." + suffix);
    var validNames, progress;
    validNames, registered, progress := Batch.FastDnsLookup(candidates, resolves, true, threads);
  }

  /** `check_azure_vms`: one candidate list per region, `name.region.cloudapp.azure.com`;
      a non-empty `--region` replaces the configured regions. */
  method CheckAzureVms(names: seq<string>, configured: seq<string>, region: Option<string>,
                       resolves: string -> bool, threads: nat)
    returns (regions: seq<string>, candidates: seq<seq<string>>, registered: seq<seq<string>>)
    requires threads >= 1
    ensures regions == if region.Some? && region.value != "" then [region.value] else configured
    ensures |candidates| == |regions| == |registered|
    ensures forall k | 0 <= k < |regions| :: candidates[k] == Wrap(names, "", "." + regions[k] + "." + VmUrl)
    ensures forall k | 0 <= k < |regions| :: registered[k] == Filter(candidates[k], n => Batch.Kept(resolves, n))
  {
    regions := configured;
    if region.Some? && region.value != "" {
      regions := [region.value];
    }
    candidates, registered := [], [];
    for k := 0 to |regions|
      invariant |candidates| == k == |registered|
      invariant forall j | 0 <= j < k :: candidates[j] == Wrap(names, "", "." + regions[j] + "." + VmUrl)
      invariant forall j | 0 <= j < k :: registered[j] == Filter(candidates[j], n => Batch.Kept(resolves, n))
    {
      var regionCandidates := Wrap(names, "", "." + regions[k] + "." + VmUrl);
      var validNames, reported, progress := Batch.FastDnsLookup(regionCandidates, resolves, true, threads);
      candidates := candidates + [regionCandidates];
      registered := registered + [reported];
    }
  }

  /** The VM check asks about every name in every region. */
  lemma VmCandidateCount(names: seq<string>, regions: seq<string>, candidates: seq<seq<string>>)
    requires |candidates| == |regions|
    requires forall k | 0 <= k < |regions| :: candidates[k] == Wrap(names, "", "." + regions[k] + "." + VmUrl)
    ensures |Flatten(candidates)| == |regions| * |names|
  {
    FlattenUniformLength(candidates, |names|);
  }

  // The pre-filter of `brute_force_containers`

  /** `list.remove`: drops the first occurrence. Python raises a ValueError
      when x is absent; the pre-filter only removes the account it is looking
      at, so that case never arises there, and the function then returns s. */
  function RemoveFirst(s: seq<string>, x: string): (r: seq<string>)
    ensures x in s ==> |r| == |s| - 1
    ensures x !in s ==> r == s
    ensures forall y | y in r :: y in s
  {
    if s == [] then []
    else if s[0] == x then s[1..]
    else [s[0]] + RemoveFirst(s[1..], x)
  }

  /** Where `list.remove` finds x: its first occurrence. */
  function FirstIndex(s: seq<string>, x: string): (i: nat)
    requires x in s
    ensures i < |s| && s[i] == x && x !in s[..i]
  {
    if s[0] == x then 0
    else
      var j := FirstIndex(s[1..], x);
      assert s[..j + 1] == [s[0]] + s[1..][..j];
      j + 1
  }

  /** The element removed is x at its first occurrence, and the others keep their order. */
  lemma {:induction false} RemoveFirstIsListRemove(s: seq<string>, x: string)
    requires x in s
    ensures RemoveFirst(s, x) == s[..FirstIndex(s, x)] + s[FirstIndex(s, x) + 1..]
  {
    if s[0] != x {
      var t := s[1..];
      RemoveFirstIsListRemove(t, x);
      var j := FirstIndex(t, x);
      assert FirstIndex(s, x) == j + 1;
      calc {
        RemoveFirst(s, x);
        [s[0]] + RemoveFirst(t, x);
        [s[0]] + (t[..j] + t[j + 1..]);
        { assert s[..j + 1] == [s[0]] + t[..j]; assert s[j + 2..] == t[j + 1..]; }
        s[..j + 1] + s[j + 2..];
      }
    }
  }

  /** The probe reply that gets an account removed from the list. */
  predicate Rejected(reply: Reply) {
    Contains(reply.reason, AuthFailed) || Contains(reply.reason, AccountDisabled)
  }

  function ProbeUrl(account: string): string {
    "https://" + account + "/"
  }

  /** What the pre-filter leaves: the list after its removals, the accounts
      kept for brute forcing, and the accounts actually probed, in order. */
  datatype Sweep = Sweep(remaining: seq<string>, valid: seq<string>, probed: seq<string>)

  /** The pre-filter from list position i on. Python's list iterator reads
      position i of the list as it is at that moment, so a removal shifts the
      next account into the position already passed. A connection error
      neither removes nor keeps the account. */
  function SweepFrom(accounts: seq<string>, i: nat, fetch: string -> Option<Reply>): Sweep
    decreases |accounts| - i
  {
    if i >= |accounts| then Sweep(accounts, [], [])
    else
      var account := accounts[i];
      var reply := fetch(ProbeUrl(account));
      if reply.Some? && Rejected(reply.value) then
        var rest := SweepFrom(RemoveFirst(accounts, account), i + 1, fetch);
        Sweep(rest.remaining, rest.valid, [account] + rest.probed)
      else
        var rest := SweepFrom(accounts, i + 1, fetch);
        Sweep(rest.remaining, (if reply.Some? then [account] else []) + rest.valid, [account] + rest.probed)
  }

  function Resume(valid: seq<string>, probed: seq<string>, rest: Sweep): Sweep {
    Sweep(rest.remaining, valid + rest.valid, probed + rest.probed)
  }

  lemma ResumeResume(v: seq<string>, p: seq<string>, v2: seq<string>, p2: seq<string>, rest: Sweep)
    ensures Resume(v, p, Resume(v2, p2, rest)) == Resume(v + v2, p + p2, rest)
  {
    assert v + (v2 + rest.valid) == (v + v2) + rest.valid;
    assert p + (p2 + rest.probed) == (p + p2) + rest.probed;
  }

  /** One step of the pre-filter, as the loop body takes it. */
  lemma SweepStep(accounts: seq<string>, i: nat, fetch: string -> Option<Reply>)
    requires i < |accounts|
    ensures var reply := fetch(ProbeUrl(accounts[i]));
      SweepFrom(accounts, i, fetch) ==
        if reply.Some? && Rejected(reply.value) then
          Resume([], [accounts[i]], SweepFrom(RemoveFirst(accounts, accounts[i]), i + 1, fetch))
        else
          Resume(if reply.Some? then [accounts[i]] else [], [accounts[i]], SweepFrom(accounts, i + 1, fetch))
  {
  }

  /** The `for account in storage_accounts` loop with its in-place removals. */
  method PreFilter(storageAccounts: seq<string>, fetch: string -> Option<Reply>) returns (sweep: Sweep)
    ensures sweep == SweepFrom(storageAccounts, 0, fetch)
  {
    var accounts := storageAccounts;
    var validAccounts: seq<string> := [];
    var probed: seq<string> := [];
    var i := 0;
    assert validAccounts + SweepFrom(accounts, i, fetch).valid == SweepFrom(accounts, i, fetch).valid;
    assert probed + SweepFrom(accounts, i, fetch).probed == SweepFrom(accounts, i, fetch).probed;
    while i < |accounts|
      invariant SweepFrom(storageAccounts, 0, fetch) == Resume(validAccounts, probed, SweepFrom(accounts, i, fetch))
      decreases |accounts| - i
    {
      var account := accounts[i];
      SweepStep(accounts, i, fetch);
      var reply := fetch(ProbeUrl(account));
      var kept: seq<string> := [];
      var next := accounts;
      if reply.Some? {
        if Contains(reply.value.reason, AuthFailed) {
          next := RemoveFirst(accounts, account);
        } else if Contains(reply.value.reason, AccountDisabled) {
          next := RemoveFirst(accounts, account);
        } else {
          kept := [account];
        }
      }
      ResumeResume(validAccounts, probed, kept, [account], SweepFrom(next, i + 1, fetch));
      accounts, i := next, i + 1;
      validAccounts, probed := validAccounts + kept, probed + [account];
    }
    sweep := Sweep(accounts, validAccounts, probed);
  }

  /** Every account kept for brute forcing comes from the list, answered its
      probe, and was neither auth-only nor disabled. */
  lemma {:induction false} SweepValid(accounts: seq<string>, i: nat, fetch: string -> Option<Reply>)
    ensures forall a | a in SweepFrom(accounts, i, fetch).valid ::
      a in accounts && fetch(ProbeUrl(a)).Some? && !Rejected(fetch(ProbeUrl(a)).value)
    decreases |accounts| - i
  {
    if i < |accounts| {
      var account := accounts[i];
      var reply := fetch(ProbeUrl(account));
      if reply.Some? && Rejected(reply.value) {
        SweepValid(RemoveFirst(accounts, account), i + 1, fetch);
      } else {
        SweepValid(accounts, i + 1, fetch);
      }
    }
  }

  /** When no probe is rejected the pre-filter looks at every account and
      keeps each one that answered, in order. */
  lemma {:induction false} SweepWithoutRemovals(accounts: seq<string>, i: nat, fetch: string -> Option<Reply>)
    requires i <= |accounts|
    requires forall a | a in accounts :: fetch(ProbeUrl(a)).None? || !Rejected(fetch(ProbeUrl(a)).value)
    ensures SweepFrom(accounts, i, fetch) ==
      Sweep(accounts, Filter(accounts[i..], a => fetch(ProbeUrl(a)).Some?), accounts[i..])
    decreases |accounts| - i
  {
    var keep := a => fetch(ProbeUrl(a)).Some?;
    if i == |accounts| {
      assert accounts[i..] == [];
    } else {
      SweepWithoutRemovals(accounts, i + 1, fetch);
      var account := accounts[i];
      var reply := fetch(ProbeUrl(account));
      var rest := SweepFrom(accounts, i + 1, fetch);
      assert accounts[i..] == [account] + accounts[i + 1..];
      assert SweepFrom(accounts, i, fetch) == Resume(Filter([account], keep), [account], rest) by {
        assert account in accounts;
        SweepStep(accounts, i, fetch);
        assert [account][..0] == [];
        assert Filter([account], keep) == if reply.Some? then [account] else [];
      }
      assert Filter(accounts[i..], keep) == Filter([account], keep) + Filter(accounts[i + 1..], keep) by {
        FilterConcat([account], accounts[i + 1..], keep);
      }
    }
  }

  /** The pre-filter from position i on probes only accounts at position i
      or later. */
  lemma {:induction false} SweepProbesAhead(accounts: seq<string>, i: nat, fetch: string -> Option<Reply>)
    ensures forall x | x in SweepFrom(accounts, i, fetch).probed :: x in accounts[i..]
    decreases |accounts| - i
  {
    if i < |accounts| {
      var account := accounts[i];
      var reply := fetch(ProbeUrl(account));
      if reply.Some? && Rejected(reply.value) {
        var rest := RemoveFirst(accounts, account);
        SweepProbesAhead(rest, i + 1, fetch);
        if i + 2 <= |accounts| {
          RemoveFirstIsListRemove(accounts, account);
          var f := FirstIndex(accounts, account);
          assert f <= i;
          assert rest[i + 1..] == accounts[i + 2..];
        }
      } else {
        SweepProbesAhead(accounts, i + 1, fetch);
      }
    }
  }

  /** Removing an account skips the one after it: when the account at
      position i is rejected, the account at position i + 1 is never probed. */
  lemma {:induction false} SweepSkipsNext(accounts: seq<string>, i: nat, fetch: string -> Option<Reply>)
    requires NoDups(accounts) && i + 1 < |accounts|
    requires fetch(ProbeUrl(accounts[i])).Some? && Rejected(fetch(ProbeUrl(accounts[i])).value)
    ensures accounts[i + 1] !in SweepFrom(accounts, i, fetch).probed
  {
    var account := accounts[i];
    var rest := RemoveFirst(accounts, account);
    SweepProbesAhead(rest, i + 1, fetch);
    RemoveFirstIsListRemove(accounts, account);
    var f := FirstIndex(accounts, account);
    assert f == i;
    assert rest[i + 1..] == accounts[i + 2..];
  }

  const ContainerQuery := "/?restype=container&comp=list"

  /** `account/name/?restype=container&comp=list` for every container name. */
  function ContainerUrls(account: string, names: seq<string>): seq<string> {
    Wrap(names, account + "/", ContainerQuery)
  }

  /** `brute_force_containers`: the pre-filter, then one HTTPS batch run per
      kept account. A breakout ends only that account's run. */
  method BruteForceContainers(storageAccounts: seq<string>, cleanNames: seq<string>,
                              fetch: string -> Option<Reply>, threads: nat)
    returns (sweep: Sweep, urls: seq<seq<string>>, runs: seq<Batch.Run>)
    requires threads >= 1
    ensures sweep == SweepFrom(storageAccounts, 0, fetch)
    ensures |urls| == |sweep.valid| == |runs|
    ensures forall k | 0 <= k < |urls| :: urls[k] == ContainerUrls(sweep.valid[k], cleanNames)
    ensures forall k | 0 <= k < |runs| :: runs[k] == Batch.UrlBatch(urls[k], true, ContainerResponse, threads, fetch)
  {
    sweep := PreFilter(storageAccounts, fetch);
    urls, runs := [], [];
    for k := 0 to |sweep.valid|
      invariant |urls| == k == |runs|
      invariant forall j | 0 <= j < k :: urls[j] == ContainerUrls(sweep.valid[j], cleanNames)
      invariant forall j | 0 <= j < k :: runs[j] == Batch.UrlBatch(urls[j], true, ContainerResponse, threads, fetch)
    {
      var candidates := DecorateAll(cleanNames, sweep.valid[k] + "/", ContainerQuery);
      var run := Batch.GetUrlBatch(candidates, true, ContainerResponse, threads, fetch);
      urls := urls + [candidates];
      runs := runs + [run];
    }
  }

  /** One URL per kept account and container name. */
  lemma ContainerUrlCount(valid: seq<string>, names: seq<string>, urls: seq<seq<string>>)
    requires |urls| == |valid|
    requires forall k | 0 <= k < |urls| :: urls[k] == ContainerUrls(valid[k], names)
    ensures |Flatten(urls)| == |valid| * |names|
  {
    FlattenUniformLength(urls, |names|);
  }

  /** The account checks `run_all` makes after the storage check, in order. */
  const OtherAccountSuffixes := [FileUrl, QueueUrl, TableUrl, MgmtUrl, VaultUrl]

  /** The first part of `run_all`: the storage check, then brute forcing of
      containers exactly when it found accounts and this is not a quick scan. */
  method CheckStorage(names: seq<string>, cleanNames: seq<string>, quickscan: bool,
                      resolves: string -> bool, fetch: string -> Option<Reply>, threads: nat)
    returns (storageRun: Batch.Run, storage: seq<string>, containerRuns: seq<Batch.Run>)
    requires threads >= 1
    ensures var blob := Filter(Wrap(Filter(names, AllAsciiAlnum), "", "." + BlobUrl), n => Batch.Kept(resolves, n));
      && storageRun == Batch.UrlBatch(blob, false, AccountResponse, threads, fetch)
      && NoDups(storage) && (forall a :: a in storage <==> a in blob)
    ensures storage == [] || quickscan ==> containerRuns == []
    ensures storage != [] && !quickscan ==>
      var valid := SweepFrom(storage, 0, fetch).valid;
      && |containerRuns| == |valid|
      && forall k | 0 <= k < |valid| ::
           containerRuns[k] == Batch.UrlBatch(ContainerUrls(valid[k], cleanNames), true, ContainerResponse, threads, fetch)
  {
    var candidates, validNames;
    candidates, validNames, storageRun, storage := CheckAccounts(names, BlobUrl, resolves, fetch, threads);
    containerRuns := [];
    if storage != [] && !quickscan {
      var sweep, urls;
      sweep, urls, containerRuns := BruteForceContainers(storage, cleanNames, fetch, threads);
    }
  }

  /** The file, queue, table, management and vault checks of `run_all`, in order. */
  method CheckOtherAccounts(names: seq<string>, resolves: string -> bool, fetch: string -> Option<Reply>, threads: nat)
    returns (accountRuns: seq<Batch.Run>)
    requires threads >= 1
    ensures |accountRuns| == |OtherAccountSuffixes|
    ensures forall k | 0 <= k < |accountRuns| ::
      accountRuns[k] == Batch.UrlBatch(Filter(Wrap(Filter(names, AllAsciiAlnum), "", "." + OtherAccountSuffixes[k]),
                                               n => Batch.Kept(resolves, n)), false, AccountResponse, threads, fetch)
  {
    accountRuns := [];
    for k := 0 to |OtherAccountSuffixes|
      invariant |accountRuns| == k
      invariant forall j | 0 <= j < k ::
        accountRuns[j] == Batch.UrlBatch(Filter(Wrap(Filter(names, AllAsciiAlnum), "", "." + OtherAccountSuffixes[j]),
                                                 n => Batch.Kept(resolves, n)), false, AccountResponse, threads, fetch)
    {
      var c, v, run, a := CheckAccounts(names, OtherAccountSuffixes[k], resolves, fetch, threads);
      accountRuns := accountRuns + [run];
    }
  }

  /** `run_all`: the storage check and container brute force, the other
      account checks, then websites, databases and VMs. */
  method RunAll(names: seq<string>, cleanNames: seq<string>, quickscan: bool, configured: seq<string>,
                region: Option<string>, resolves: string -> bool, fetch: string -> Option<Reply>, threads: nat)
    returns (storageRun: Batch.Run, storage: seq<string>, containerRuns: seq<Batch.Run>,
             accountRuns: seq<Batch.Run>, websites: seq<string>, databases: seq<string>,
             regions: seq<string>, vms: seq<seq<string>>)
    requires threads >= 1
    ensures var blob := Filter(Wrap(Filter(names, AllAsciiAlnum), "", "." + BlobUrl), n => Batch.Kept(resolves, n));
      && storageRun == Batch.UrlBatch(blob, false, AccountResponse, threads, fetch)
      && NoDups(storage) && (forall a :: a in storage <==> a in blob)
    ensures storage == [] || quickscan ==> containerRuns == []
    ensures storage != [] && !quickscan ==>
      var valid := SweepFrom(storage, 0, fetch).valid;
      && |containerRuns| == |valid|
      && forall k | 0 <= k < |valid| ::
           containerRuns[k] == Batch.UrlBatch(ContainerUrls(valid[k], cleanNames), true, ContainerResponse, threads, fetch)
    ensures |accountRuns| == |OtherAccountSuffixes|
    ensures forall k | 0 <= k < |accountRuns| ::
      accountRuns[k] == Batch.UrlBatch(Filter(Wrap(Filter(names, AllAsciiAlnum), "", "." + OtherAccountSuffixes[k]),
                                               n => Batch.Kept(resolves, n)), false, AccountResponse, threads, fetch)
    ensures websites == Filter(Wrap(names, "", "." + WebappUrl), n => Batch.Kept(resolves, n))
    ensures databases == Filter(Wrap(names, "", "." + DatabaseUrl), n => Batch.Kept(resolves, n))
    ensures regions == if region.Some? && region.value != "" then [region.value] else configured
    ensures |vms| == |regions|
    ensures forall k | 0 <= k < |regions| :: vms[k] == Filter(Wrap(names, "", "." + regions[k] + "." + VmUrl), n => Batch.Kept(resolves, n))
  {
    storageRun, storage, containerRuns := CheckStorage(names, cleanNames, quickscan, resolves, fetch, threads);
    accountRuns := CheckOtherAccounts(names, resolves, fetch, threads);
    var webCandidates, dbCandidates, vmCandidates;
    webCandidates, websites := CheckDnsNames(names, WebappUrl, resolves, threads);
    dbCandidates, databases := CheckDnsNames(names, DatabaseUrl, resolves, threads);
    regions, vmCandidates, vms := CheckAzureVms(names, configured, region, resolves, threads);
  }
}
