# cloud_enum in Dafny

This project models the deterministic core of cloud_enum, a multi-cloud OSINT
tool that turns keywords into candidate resource names and probes AWS, Azure
and Google Cloud for open or protected storage, databases, apps and functions.
The model covers:

- **Name mutation** (`Names`: `clean_text`, `build_names`, and the quickscan choice in `main`).
- **The probing engine** (`Batch`: `get_url_batch`, `dns_lookup`, `fast_dns_lookup`, and the URL part of `list_bucket_contents`).
  - The HTTP session is an oracle `fetch: url -> Option<Reply>`, where `None` is a connection error or timeout.
  - The resolver is an oracle `resolves: name -> bool`.
  - Thread pools are sequential passes, which is faithful because results are read back in dict or `pool.map` order.
- **The reply classifiers and candidate builders** of every provider module:
  - `Aws`, `Gcp` and `Azure` (enum_tools);
  - `GcpArchived` (the archived Google checks, including the two-phase Cloud Functions scan);
  - `CloudEnumAzure` (the package version of the Azure checks).

  A classifier returns an `Outcome` instead of printing:
  - `Nothing`;
  - `Finding` with its key, message, access level, target URL and optional listing URL;
  - `Unknown` for the "unknown status" diagnostic;
  - `Breakout`;
  - `Fault` when Python would raise.

  Each classifier is written as the source's if/elif chain. It is also proved equal to a declarative signature table (`Rules.Classify`, first match wins), which serves as its independent reference definition.
- **The signature registry** (`CloudCheckers.Checker`), a class whose `targets` set and `sigs` list are updated in place. Python's dynamic argument types are encoded as a tagged `Value`.
- **The logger** (`Logging.Logger`): the level mapping, the threshold filter, the extra-data dictionary and entry building.

The modules `Seqs`, `Replies` and `Targets` hold shared definitions:
- list filtering, flattening, and dict-key de-duplication;
- the reply and outcome types, and Python's `in` on strings;
- the `prefix + name + suffix` candidate builders.

Where prose descriptions of the tool and its code differ, the model follows the code:
- **AWS classifier.** `'Slow Down'` breaks out only for statuses other than 404, 200 and 403.
- **Archived App Engine classifier.** The 5xx test compares a character with an integer and never fires.
- **Two checker modules.**
  - The `check_*` functions of `enum_tools/azure_checks.py` call `print_*` functions declared without `self`.
  - The package version `cloud_enum/azure_checks.py` calls `utils.get_url_batch` and a two-argument `utils.fast_dns_lookup`, which `cloud_enum/utils.py` does not define.

  The model gives those calls the behaviour of the `enum_tools/utils.py` engine. A callback is a function from a reply to an outcome.

## Model

| member | source | states |
|---|---|---|
| Names.CleanText | cloud_enum.py:174-182 | the result uses only `[a-z0-9.-]` and is no longer than the input |
| Names.CleanTextConcat | cloud_enum.py:178-180 | cleaning works character by character, so it distributes over concatenation |
| Names.CleanTextFixesClean | cloud_enum.py:178-180 | a string already in `[a-z0-9.-]` is returned unchanged |
| Names.CleanTextIdempotent | cloud_enum.py:178-182 | cleaning twice is cleaning once |
| Names.CleanTextUpper | cloud_enum.py:179-180 | an ASCII capital survives as its lower-case letter, because lowering comes before filtering |
| Names.CleanTextDrops | cloud_enum.py:179-180 | a character outside the alphabet after lowering is dropped, not escaped |
| Names.AppendMutations | cloud_enum.py:198-210 | the inner loop appends, for each mutation in order, the three appended and three prepended combinations |
| Names.BuildNames | cloud_enum.py:185-214 | the names are `Expand(bases, mutations)`; there are exactly \|bases\|·(1+6·\|mutations\|) of them, and all are in the hostname alphabet |
| Names.ScanNames | cloud_enum.py:231-235 | quickscan uses an empty mutation list, so the names are the cleaned keywords |
| Names.MutatedLength | cloud_enum.py:198-210 | each mutation contributes exactly six names |
| Names.ExpandLength | cloud_enum.py:189-210 | \|bases\|·(1+6·\|mutations\|) names; nothing is de-duplicated or length-filtered |
| Names.MutatedClean | cloud_enum.py:200-210 | names built from a clean base and cleaned mutations are clean |
| Names.ExpandClean | cloud_enum.py:193-210 | every generated name is in `[a-z0-9.-]` |
| Names.ExpandQuickscan | cloud_enum.py:196 | with no mutations the output is the cleaned bases in order, duplicates kept |
| Names.ExpandConcat | cloud_enum.py:191-210 | the output for a concatenation of base lists is the concatenation of the outputs |
| Names.ExpandBlocks | cloud_enum.py:191-210 | base k's block (clean base, then its mutations) sits between the blocks of the bases before and after it |
| Names.MutatedConcat | cloud_enum.py:198-210 | a base's mutation block splits along the mutation list |
| Names.MutatedBlocks | cloud_enum.py:198-210 | mutation j's six variants follow those of the earlier mutations |
| Names.ExpandExample | cloud_enum.py:191-210 | `["ab"]`, `["cd"]` gives `[ab, abcd, ab.cd, ab-cd, cdab, cd.ab, cd-ab]` |
| Names.EmptyMutationRepeatsBase | cloud_enum.py:198-210 | an empty mutation repeats the base, so duplicates are kept |
| Seqs.FlattenCons | enum_tools/utils.py:49 | flattening a list of lists unfolds from the front |
| Seqs.FlattenUniformLength | enum_tools/azure_checks.py:396-398 | k equally long lists flatten to k times the length |
| Seqs.FlattenUniformIndex | cloud_enum/azure_checks.py:122-129 | element j of list i is at i·k+j after flattening |
| Seqs.FilterMembership | enum_tools/azure_checks.py:101-104 | an element is kept iff it is in the list and passes the test |
| Seqs.FilterConcat | enum_tools/utils.py:142-146 | filtering distributes over concatenation, so batching does not change the result |
| Seqs.FilterAll | enum_tools/aws_checks.py:77-78 | a filter that keeps everything changes nothing |
| Seqs.DedupFacts | enum_tools/utils.py:64-69 | dict keys filled in order are distinct and are exactly the list's values |
| Seqs.DedupPrefix | enum_tools/utils.py:64-69 | keys of a prefix are a prefix of the keys, in first-occurrence order |
| Seqs.DedupFirstOccurrence | enum_tools/utils.py:64-69 | a value not seen before becomes the next key |
| Seqs.NoDupsDedup | enum_tools/utils.py:64-69 | a list without duplicates is its own key list |
| Replies.ContainsAt | enum_tools/aws_checks.py:56 | `needle in haystack` holds iff the needle occurs at some offset |
| Replies.ContainsInfix | enum_tools/aws_checks.py:56 | a phrase is found in any string built around it |
| Rules.ClassifyUnknown | enum_tools/aws_checks.py:47-62 | a signature table answers "unknown" exactly when no signature matches (both directions) |
| Rules.ClassifyFirstMatch | enum_tools/aws_checks.py:47-62 | otherwise the first matching signature decides |
| Rules.ClassifySkip | enum_tools/aws_checks.py:47-62 | signatures that do not match can be dropped from the front |
| Rules.FirstMatchDecides | enum_tools/aws_checks.py:47-62 | the decision is that of the first match, or unknown past the end |
| Rules.ClassifyStep | enum_tools/aws_checks.py:47-62 | one elif at a time: the head decides if it matches, else the rest |
| Batch.ChunksFlatten | enum_tools/utils.py:49 | the batches concatenate back to the input |
| Batch.ChunksSizes | enum_tools/utils.py:49 | no batch is empty or longer than `threads`; only the last may be shorter |
| Batch.ChunksCount | enum_tools/utils.py:131 | there are ⌈n/threads⌉ batches |
| Batch.GatherBatch | enum_tools/utils.py:64-84 | one result per distinct URL, in first-occurrence order; a failed request is dropped, the rest of the batch kept |
| Batch.DeliverBatch | enum_tools/utils.py:89-92 | results go to the callback in order, and delivery stops right after a breakout |
| Batch.JoinJoin | enum_tools/utils.py:89-95 | the calls and the counter of successive batches add up |
| Batch.RunBatchesStep | enum_tools/utils.py:89-95 | a run is the first batch's delivery followed, unless it stopped, by the rest of the run |
| Batch.GetUrlBatch | enum_tools/utils.py:37-102 | the loop over batches computes `UrlBatch`: calls in order, the early return, the counter |
| Batch.AnsweredIsFiltered | enum_tools/utils.py:74-84 | a batch's results are its URLs whose request succeeded, each with its reply, the scheme prefixed |
| Batch.DeliverIsPrefix | enum_tools/utils.py:89-92 | the callback sees a prefix of the results, all of them unless it stopped |
| Batch.DeliverReplies | enum_tools/utils.py:89-90 | call i gets result i's reply and records the callback's answer |
| Batch.DeliverStopsLast | enum_tools/utils.py:89-92 | only the last call can stop, and delivery stopped exactly when it did |
| Batch.FilterNoDups | enum_tools/utils.py:64-74 | filtering keeps distinct URLs distinct |
| Batch.BatchDelivery | enum_tools/utils.py:64-92 | within a batch the callback gets at most one call per distinct URL, all for successful requests |
| Batch.RunStopsOnlyLast | enum_tools/utils.py:89-92 | over a whole run no call follows a breakout |
| Batch.RunStoppedByLast | enum_tools/utils.py:89-92 | a run returns early exactly when its last call broke out |
| Batch.RunCallsAnswered | enum_tools/utils.py:52-92 | every call is for a requested URL whose request (with the chosen scheme) succeeded, with the callback's own answer |
| Batch.RunProgress | enum_tools/utils.py:95 | the counter gains `threads` per fully processed batch |
| Batch.UrlBatchFacts | enum_tools/utils.py:37-102 | the same facts stated on `get_url_batch`'s inputs |
| Batch.NoneAnswered | enum_tools/utils.py:74-84 | if every request fails there are no results |
| Batch.ProgressOvershoots | enum_tools/utils.py:95 | six failing URLs with five threads leave the counter at 10 |
| Batch.DnsLookup | enum_tools/utils.py:104-117 | the name when it resolves, `''` on NXDOMAIN |
| Batch.ResolveBatch | enum_tools/utils.py:139-146 | one batch keeps exactly its resolved, non-empty names, in order |
| Batch.FastDnsLookup | enum_tools/utils.py:119-158 | the resolved names as a subsequence of the input, in order; the callback gets the same names in that order; the counter is threads·batches |
| Batch.ResolvedNames | enum_tools/utils.py:139-158 | a name is returned iff it is in the input, non-empty and resolves; batching does not change the result |
| Batch.FromNewline | enum_tools/utils.py:172-173 | the rest of a string from its first newline is never longer |
| Batch.StripQuery | enum_tools/utils.py:172-173 | no `?` survives the query strip |
| Batch.FromNewlineNone | enum_tools/utils.py:172-173 | a one-line string has nothing after a newline |
| Batch.StripQueryKeeps | enum_tools/utils.py:172-173 | text before the first `?` is kept |
| Batch.StripQueryCuts | enum_tools/utils.py:172-173 | on a one-line URL everything from the first `?` is cut |
| Batch.ContainerListingUrls | enum_tools/utils.py:170-180 | a container listing URL loses its query before each key is appended |
| Targets.WrapUnwrap | enum_tools/aws_checks.py:77-78 | every candidate gives back its name when the fixed prefix and suffix are cut off |
| Targets.WrapMembership | enum_tools/aws_checks.py:77-78 | a wrapped name is a candidate iff the name is in the list |
| Targets.WrapConcat | enum_tools/aws_checks.py:77-78 | the builder distributes over concatenation |
| Targets.Decorate | enum_tools/azure_checks.py:101-104 | the builder loop wraps exactly the names that pass its test, in order |
| Targets.DecorateAll | enum_tools/gcp_checks.py:49-50 | an unconditional builder wraps every name, in order |
| Aws.S3Response | enum_tools/aws_checks.py:40-62 | 404: nothing; 200: open bucket with listing; 403: protected; `Slow Down` breaks out iff the status is none of those; unknown otherwise |
| Aws.S3ResponseIsTable | enum_tools/aws_checks.py:47-62 | the chain equals its signature table |
| Aws.CheckS3Buckets | enum_tools/aws_checks.py:64-86 | candidates are `name.s3.amazonaws.com` for every name, in order, probed over HTTP |
| Aws.S3StopsOnRateLimit | enum_tools/aws_checks.py:56-58 | the check stops exactly when the last classified reply was a rate limit |
| Gcp.BucketResponse | enum_tools/gcp_checks.py:17-34 | 404: nothing; 200: open; 403: protected; unknown iff another status; never a breakout |
| Gcp.BucketResponseIsTable | enum_tools/gcp_checks.py:24-34 | the chain equals its signature table |
| Gcp.CheckGcpBuckets | enum_tools/gcp_checks.py:36-58 | candidates are `storage.googleapis.com/name`, in order |
| Gcp.BucketRunNeverStops | enum_tools/gcp_checks.py:17-34 | the run is never cut short |
| Azure.AccountResponse | enum_tools/azure_checks.py:38-81 | 404 or the not-a-representation phrase: nothing; auth before disabled before query before HTTPS-only, each fixing key and access; `Unauthorized` alone emits nothing; never a breakout |
| Azure.AccountResponseIsTable | enum_tools/azure_checks.py:48-81 | the chain equals its signature table |
| Azure.ContainerResponse | enum_tools/azure_checks.py:305-351 | breaks out iff a disabled, auth or Blob API phrase is present, whatever the status; otherwise 200 is an open public container with listing, 404 nothing |
| Azure.ContainerResponseIsTable | enum_tools/azure_checks.py:315-351 | the chain equals its signature table |
| Azure.CheckAccounts | enum_tools/azure_checks.py:83-118 | candidates are `name.suffix` for letters-and-digits names, in order; the resolved ones are probed; the result has no duplicates and the same elements |
| Azure.AccountCandidates | enum_tools/azure_checks.py:101-104 | `name.suffix` is a candidate iff the name is in the list and made of ASCII letters and digits |
| Azure.CheckDnsNames | enum_tools/azure_checks.py:420-468 | websites and databases: every name gets the suffix, unfiltered; the resolved ones are reported |
| Azure.CheckAzureVms | enum_tools/azure_checks.py:485-512 | a given region replaces the list; one candidate list `name.region.cloudapp.azure.com` per region |
| Azure.VmCandidateCount | enum_tools/azure_checks.py:505-506 | \|regions\|·\|names\| VM candidates |
| Azure.RemoveFirst | enum_tools/azure_checks.py:372-374 | `list.remove` shortens the list by one when the value is present and adds nothing |
| Azure.FirstIndex | enum_tools/azure_checks.py:372-374 | the position `list.remove` acts on holds the value and no earlier position does |
| Azure.RemoveFirstIsListRemove | enum_tools/azure_checks.py:372-374 | `list.remove` drops the value at its first occurrence and keeps every other element in order |
| Azure.ResumeResume | enum_tools/azure_checks.py:366-378 | resuming a sweep composes |
| Azure.SweepStep | enum_tools/azure_checks.py:366-378 | one iteration: a rejected account is removed and the position stays, else it is kept if answered and the position advances |
| Azure.PreFilter | enum_tools/azure_checks.py:366-378 | the loop that mutates the list it iterates computes `SweepFrom` |
| Azure.SweepValid | enum_tools/azure_checks.py:366-378 | every kept account is in the list, was answered and was not rejected |
| Azure.SweepWithoutRemovals | enum_tools/azure_checks.py:366-378 | with no rejections, every account is probed and the answered ones are kept in order |
| Azure.SweepProbesAhead | enum_tools/azure_checks.py:366-378 | from list position i on, only accounts at position i or later are probed |
| Azure.SweepSkipsNext | enum_tools/azure_checks.py:366-378 | in a list without duplicates, the account right after a removed one is never probed |
| Azure.BruteForceContainers | enum_tools/azure_checks.py:353-405 | after the pre-filter, one batch per kept account over `account/name/?restype=container&comp=list` |
| Azure.ContainerUrlCount | enum_tools/azure_checks.py:396-398 | \|valid accounts\|·\|names\| container URLs |
| Azure.CheckStorage | enum_tools/azure_checks.py:524-526 | the blob-suffix accounts are probed; containers are brute forced, over the pre-filtered accounts, exactly when some account was found and this is not a quick scan |
| Azure.CheckOtherAccounts | enum_tools/azure_checks.py:528-532 | one account probe run per suffix: file, queue, table, management, vault, in that order |
| Azure.RunAll | enum_tools/azure_checks.py:517-535 | the storage check and container brute force, the five other account checks, then websites, databases and VMs, each with its own DNS suffix |
| GcpArchived.BucketResponse | archived_old_code/enum_tools/gcp_checks.py:26-50 | 404: nothing; 200: public with listing; 403: protected; unknown otherwise; never stops |
| GcpArchived.BucketResponseIsTable | archived_old_code/enum_tools/gcp_checks.py:35-50 | the chain equals its signature table |
| GcpArchived.FbrtdbResponse | archived_old_code/enum_tools/gcp_checks.py:78-111 | 404: nothing; 200: public; 401: protected; disabled iff 402 or 423; unknown iff another status |
| GcpArchived.FbrtdbResponseIsTable | archived_old_code/enum_tools/gcp_checks.py:87-111 | the chain equals its signature table |
| GcpArchived.AppspotResponse | archived_old_code/enum_tools/gcp_checks.py:141-172 | 5xx falls through to unknown; 200/302 is protected with the first redirect on a Google login URL, else public; an empty history there raises |
| GcpArchived.AppspotResponseIsTable | archived_old_code/enum_tools/gcp_checks.py:152-172 | the chain equals its signature table |
| GcpArchived.Functions1Response | archived_old_code/enum_tools/gcp_checks.py:203-222 | a finding iff the status is 302 |
| GcpArchived.Functions1ResponseIsTable | archived_old_code/enum_tools/gcp_checks.py:212-219 | the chain equals its signature table |
| GcpArchived.Functions2Response | archived_old_code/enum_tools/gcp_checks.py:225-253 | a ServiceLogin redirect is nothing, before any status test; 401/403 protected; 405 public; 200/404 public |
| GcpArchived.Functions2ResponseIsTable | archived_old_code/enum_tools/gcp_checks.py:234-250 | the chain equals its signature table |
| GcpArchived.CheckGcpBuckets | archived_old_code/enum_tools/gcp_checks.py:53-75 | candidates are `storage.googleapis.com/name`, in order |
| GcpArchived.CheckFbrtdb | archived_old_code/enum_tools/gcp_checks.py:114-138 | dotless names become `name.firebaseio.com/.json`, probed over HTTPS |
| GcpArchived.CheckAppspot | archived_old_code/enum_tools/gcp_checks.py:175-199 | dotless names become `name.appspot.com` |
| GcpArchived.DottedNamesSkipped | archived_old_code/enum_tools/gcp_checks.py:130-131 | a name containing a dot never becomes a candidate |
| GcpArchived.RemoveAllAbsent | archived_old_code/enum_tools/gcp_checks.py:313 | `replace` leaves a string without the pattern unchanged |
| GcpArchived.StripScheme | archived_old_code/enum_tools/gcp_checks.py:313 | a host found over HTTP gets its scheme removed |
| GcpArchived.RemoveAllSinglePass | archived_old_code/enum_tools/gcp_checks.py:313 | `replace` is one left-to-right pass: removing an occurrence can create a new one |
| GcpArchived.FunctionHostsAre | archived_old_code/enum_tools/gcp_checks.py:212-219 | a URL is recorded in `HAS_FUNCS` iff some classified reply was a 302 from it |
| GcpArchived.CheckFunctions | archived_old_code/enum_tools/gcp_checks.py:256-326 | only the last region's candidates are probed; `HAS_FUNCS` grows by the 302 URLs, every one of which was found by a redirect; phase two is skipped when it is empty or in quickscan; otherwise each host, scheme removed, gets `+ brute + "/"` |
| GcpArchived.BrutedHostsWereFound | archived_old_code/enum_tools/gcp_checks.py:212-219 | every host phase one adds to `HAS_FUNCS`, and so every host phase two brute forces beyond those already held, is the final URL of a 302 reply to a candidate, reported as a public function |
| CloudEnumAzure.AccountResponse | cloud_enum/azure_checks.py:19-40 | 404: nothing; then disabled, query and HTTPS-only phrases in order; unknown iff none; never a breakout |
| CloudEnumAzure.AccountResponseIsTable | cloud_enum/azure_checks.py:27-40 | the chain equals its signature table |
| CloudEnumAzure.ContainerResponse | cloud_enum/azure_checks.py:78-103 | breaks out iff a disabled or not-authorized phrase is present, whatever the status; otherwise 200 open, 404 nothing, unknown iff neither and not out of range |
| CloudEnumAzure.ContainerResponseIsTable | cloud_enum/azure_checks.py:86-103 | the chain equals its signature table |
| CloudEnumAzure.CheckStorageAccounts | cloud_enum/azure_checks.py:42-76 | letters-and-digits names become `name.blob.core.windows.net`; the resolved ones are probed and returned, duplicates kept |
| CloudEnumAzure.BruteForceContainers | cloud_enum/azure_checks.py:105-137 | one HTTPS batch per account over `account/name/?restype=container&comp=list` |
| CloudEnumAzure.ContainerUrlOrder | cloud_enum/azure_checks.py:122-129 | \|accounts\|·\|names\| URLs, accounts outermost: position i·\|names\|+j is account i with name j |
| CloudEnumAzure.CheckAzureWebsites | cloud_enum/azure_checks.py:147-164 | every name becomes `name.azurewebsites.net`; the resolved ones are reported |
| CloudEnumAzure.RunAll | cloud_enum/azure_checks.py:166-176 | the container brute force runs iff some account resolved; websites are checked in any case |
| CloudCheckers.AccessValue | cloud_enum/cloud_checkers.py:10-16 | the enum values are 1 to 3 |
| CloudCheckers.AccessLevelOf | cloud_enum/cloud_checkers.py:10-16 | `AccessLevel(n)` succeeds iff n is 1, 2 or 3 |
| CloudCheckers.AccessLevelRoundTrip | cloud_enum/cloud_checkers.py:10-16 | PUBLIC=1, PROTECTED=2, DISABLED=3 in both directions |
| CloudCheckers.SigOf | cloud_enum/cloud_checkers.py:48-54 | each given keyword lands in its own field; omitted fields are None and `dns` is False |
| CloudCheckers.Validate | cloud_enum/cloud_checkers.py:57-70 | a ValueError iff neither `dns` nor `resp_code` is truthy, before any type check; accepted iff every field has its type; the AccessLevel error exactly when access is the first bad field |
| CloudCheckers.Checker.constructor | cloud_enum/cloud_checkers.py:23-26 | five threads by default, no targets, no signatures |
| CloudCheckers.Checker.AddTargets | cloud_enum/cloud_checkers.py:28-34 | a non-list is a TypeError with the targets unchanged; a list is unioned in |
| CloudCheckers.Checker.AddSig | cloud_enum/cloud_checkers.py:36-72 | on success exactly one signature is appended; on an error nothing changes; every stored signature is valid |
| CloudCheckers.AddTargetsIdempotent | cloud_enum/cloud_checkers.py:34 | adding the same list twice is adding it once |
| CloudCheckers.FourTargetsOneDuplicate | tests/test_cloud_checker.py:6-12 | four URLs with one repeat leave three targets |
| CloudCheckers.HttpSigs | tests/test_cloud_checker.py:22-42 | a full HTTP signature and a bare 404 are stored with their defaults |
| CloudCheckers.DnsSig | tests/test_cloud_checker.py:65-82 | a DNS-only signature has every HTTP field None |
| CloudCheckers.SigErrors | tests/test_cloud_checker.py:84-108 | no code and no DNS flag is a ValueError; each wrongly typed field is a TypeError |
| CloudCheckers.SigTruthiness | cloud_enum/cloud_checkers.py:57-61 | a code of 0 counts as absent; an empty-string code is a ValueError; a bool code is an int |
| Logging.LevelStr | logger/logger.py:57-68 | levels 0 to 4 give their names, anything else `"INFO"` |
| Logging.LevelInt | logger/logger.py:70-81 | the five names give 0 to 4, anything else INFO |
| Logging.LevelRoundTrip | logger/logger.py:57-81 | the two mappings are inverse on the five levels |
| Logging.Merged | logger/logger.py:24-29 | a non-empty map is merged with its keys winning and takes precedence; else key and value are set only when both are truthy |
| Logging.MergedIdempotent | logger/logger.py:24-29 | merging the same extra data twice is merging it once |
| Logging.Logger.constructor | logger/logger.py:17-19 | the level is the name's number; no extra data |
| Logging.Logger.New | logger/logger.py:21-22 | a fresh logger at the same level with empty extra data |
| Logging.Logger.Extra | logger/logger.py:24-29 | the extra data is merged, the level kept, and the same logger returned |
| Logging.Logger.Entry | logger/logger.py:46-55 | an entry iff the level is at least the threshold; its keys are time, level, message and the extra keys, extra values overriding |
| Logging.ThresholdMonotone | logger/logger.py:47-48 | raising the threshold only drops entries |

## Left out

- Network I/O: `requests`, `FuturesSession`, `dns.resolver` and `socket` are oracles. A request exception other than a connection error or timeout, and a resolver exception other than NXDOMAIN, are not modelled.
- Concurrency: thread pools run as sequential passes, which preserves the order results are read back in.
- Console and log output: coloured printing, progress lines, `fmt_output`, log files and the logger's JSON printing and timestamps. The "unknown status" text, including its formatting slips, is output only.
- The informational callbacks of the website, database and VM checks: they only print, so the model returns what they would be called with.
- Timers, argument parsing, `read_mutations`, `get_brute` and the word-list file read in `cloud_enum/azure_checks.py:113-114`: word lists are given sequences.
- The `nameserver` and `nameserverfile` arguments: the resolver oracle stands for the configured resolver.
- Batch.FastDnsLookup and Batch.GetUrlBatch: `threads` must be at least 1, and the same holds for every member taking `threads`. With 0, `fast_dns_lookup` raises a ValueError from the `range` step (enum_tools/utils.py:131). With a negative count it returns an empty list without building a pool, because that `range` is empty. With 0 or a negative count, `get_url_batch` raises a ValueError from `ThreadPoolExecutor(max_workers=threads)` (enum_tools/utils.py:58). None of these cases is modelled.
- Azure.CheckAccounts: `list(set(...))` has no defined order, so only "no duplicates, same elements" is stated; the model picks first-occurrence order.
- The `enum_tools/azure_checks.py` `run_all` call of `brute_force_containers` that passes `self` twice, and the other self-less calls: the checks are modelled with the arguments evidently meant.
- XML key extraction in `list_bucket_contents` (enum_tools/utils.py:164-168): the keys are a parameter; only the query strip and the join are modelled.
- Names.CleanText: `str.lower()` is modelled on ASCII only; Unicode case mapping is out of scope.
- CloudCheckers.Value: a Python list is modelled as a list of strings; other element types are not modelled.
- GcpArchived.CheckFunctions: `HAS_FUNCS` is rebuilt from the 302 calls of the run rather than kept as a module-level list mutated by the callback; with an empty region list (a NameError in Python) the model answers `Unbound`.
- GcpArchived.CheckFbrtdb and GcpArchived.CheckFunctions: the archived code passes `redir=False` to `get_url_batch` (archived_old_code/enum_tools/gcp_checks.py:134-137 and 286-289), which takes no such parameter, so as written both calls raise a TypeError before any request. The model reads the call as evidently meant, a batch that does not follow redirects; the fetch oracle has no redirect policy, so the model cannot tell the two behaviours apart.
- Logging.Merged, Logging.Logger.Extra and Logging.Logger.Entry: keys and values of the extra data are strings only, so truthiness is "non-empty string" and a `None` key or value is `Option.None`; non-string values (numbers, lists, `0` or `False` as falsy values) and their JSON rendering are not modelled. Logging.LevelInt and Logging.Logger.constructor take a string level; a non-string level, which Python compares with `==` and maps to INFO, is not modelled.
- `cloud_enum/utils.py`, `cloud_enum/main.py`, `cloud_enum/gcp_sigs.py`, `enum_tools/json_utils.py`, the region tables and `setup.py` are not part of this model; the region lists are parameters.
- The logger's `trace`, `debug`, `info`, `warning` and `error` wrappers: each is `Entry` at a fixed level.
