/** The probing engine of enum_tools/utils.py. The HTTP session and the DNS
    resolver are oracles (`fetch`, `resolves`); a thread pool working on one
    batch is a sequential pass, since its results are read back in dict or
    `pool.map` order. */
module Batch {
  import opened Seqs
  import opened Replies

  /** `[s[x:x+n] for x in range(0, len(s), n)]`. */
  function Chunks<T>(s: seq<T>, n: nat): seq<seq<T>>
    requires n >= 1
    decreases |s|
  {
    if s == [] then []
    else if |s| <= n then [s]
    else [s[..n]] + Chunks(s[n..], n)
  }

  /** The batches put back together are the input. */
  lemma {:induction false} ChunksFlatten<T>(s: seq<T>, n: nat)
    requires n >= 1
    ensures Flatten(Chunks(s, n)) == s
    decreases |s|
  {
    if s == [] {
    } else if |s| <= n {
      assert [s][..0] == [];
    } else {
      ChunksFlatten(s[n..], n);
      FlattenCons(s[..n], Chunks(s[n..], n));
      assert s == s[..n] + s[n..];
    }
  }

  /** No batch is empty or longer than n, and only the last may be shorter. */
  lemma {:induction false} ChunksSizes<T>(s: seq<T>, n: nat)
    requires n >= 1
    ensures forall i | 0 <= i < |Chunks(s, n)| :: 1 <= |Chunks(s, n)[i]| <= n
    ensures forall i | 0 <= i < |Chunks(s, n)| - 1 :: |Chunks(s, n)[i]| == n
    decreases |s|
  {
    if |s| > n {
      var rest := Chunks(s[n..], n);
      ChunksSizes(s[n..], n);
      assert forall i | 1 <= i < |Chunks(s, n)| :: Chunks(s, n)[i] == rest[i - 1];
    }
  }

  /** There are ceil(|s| / n) chunks. */
  lemma {:induction false} ChunksCount<T>(s: seq<T>, n: nat)
    requires n >= 1
    ensures |s| <= n * |Chunks(s, n)| < |s| + n
    decreases |s|
  {
    if |s| > n {
      var m := |Chunks(s[n..], n)|;
      ChunksCount(s[n..], n);
      assert |Chunks(s, n)| == 1 + m;
      assert n * (1 + m) == n + n * m;
    } else if s != [] {
      assert |Chunks(s, n)| == 1;
    }
  }

  function Proto(useSsl: bool): string {
    if useSsl then "https://" else "http://"
  }

  /** `batch_results` of one batch, in dict order: the distinct URLs whose
      request neither failed to connect nor timed out, with their replies. */
  function Answered(keys: seq<string>, proto: string, fetch: string -> Option<Reply>): seq<(string, Reply)>
  {
    if keys == [] then []
    else
      var prior := Answered(keys[..|keys| - 1], proto, fetch);
      var url := keys[|keys| - 1];
      if fetch(proto + url).Some? then prior + [(url, fetch(proto + url).value)] else prior
  }

  /** One call of the callback: the dict key, the reply handed over, and what the callback returned. */
  datatype Call = Call(url: string, reply: Reply, outcome: Outcome)

  datatype Delivery = Delivery(calls: seq<Call>, stopped: bool)

  /** Handing one batch's results to the callback, up to and including the
      first call that stops the engine. */
  function Deliver(results: seq<(string, Reply)>, callback: Reply -> Outcome): Delivery
  {
    if results == [] then Delivery([], false)
    else
      var c := Call(results[0].0, results[0].1, callback(results[0].1));
      if Stops(c.outcome) then Delivery([c], true)
      else
        var rest := Deliver(results[1..], callback);
        Delivery([c] + rest.calls, rest.stopped)
  }

  /** What a run of `get_url_batch` did: the callback calls in order, whether
      it returned early, and the final value of the progress counter. */
  datatype Run = Run(calls: seq<Call>, stopped: bool, progress: nat)

  function RunBatches(batches: seq<seq<string>>, proto: string, fetch: string -> Option<Reply>,
                      callback: Reply -> Outcome, threads: nat): Run
  {
    if batches == [] then Run([], false, 0)
    else
      var d := Deliver(Answered(Dedup(batches[0]), proto, fetch), callback);
      if d.stopped then Run(d.calls, true, 0)
      else
        var rest := RunBatches(batches[1..], proto, fetch, callback, threads);
        Run(d.calls + rest.calls, rest.stopped, threads + rest.progress)
  }

  function UrlBatch(urls: seq<string>, useSsl: bool, callback: Reply -> Outcome, threads: nat,
                    fetch: string -> Option<Reply>): Run
    requires threads >= 1
  {
    RunBatches(Chunks(urls, threads), Proto(useSsl), fetch, callback, threads)
  }

  function Join(calls: seq<Call>, progress: nat, r: Run): Run {
    Run(calls + r.calls, r.stopped, progress + r.progress)
  }

  /** The first two phases of a batch in `get_url_batch`: one pending request
      per distinct URL (`batch_pending`), then the replies of those that
      neither failed to connect nor timed out (`batch_results`). */
  method GatherBatch(batch: seq<string>, proto: string, fetch: string -> Option<Reply>)
    returns (results: seq<(string, Reply)>)
    ensures results == Answered(Dedup(batch), proto, fetch)
  {
    var pendingKeys: seq<string> := [];
    var pending: map<string, Option<Reply>> := map[];
    for i := 0 to |batch|
      invariant pendingKeys == Dedup(batch[..i])
      invariant forall k :: k in pending <==> k in pendingKeys
      invariant forall k | k in pending :: pending[k] == fetch(proto + k)
    {
      var url := batch[i];
      assert batch[..i + 1][..i] == batch[..i];
      if url !in pending {
        pendingKeys := pendingKeys + [url];
      }
      pending := pending[url := fetch(proto + url)];
    }
    assert batch[..|batch|] == batch;
    results := [];
    for i := 0 to |pendingKeys|
      invariant results == Answered(pendingKeys[..i], proto, fetch)
    {
      var url := pendingKeys[i];
      assert pendingKeys[..i + 1][..i] == pendingKeys[..i];
      var pendingReply := pending[url];
      if pendingReply.Some? {
        results := results + [(url, pendingReply.value)];
      }
    }
    assert pendingKeys[..|pendingKeys|] == pendingKeys;
  }

  /** The last phase of a batch: every result goes to the callback, and a
      'breakout' (or an exception) ends the whole run. */
  method DeliverBatch(results: seq<(string, Reply)>, callback: Reply -> Outcome)
    returns (delivered: seq<Call>, stopped: bool)
    ensures Delivery(delivered, stopped) == Deliver(results, callback)
  {
    delivered := [];
    var j := 0;
    while j < |results|
      invariant 0 <= j <= |results|
      invariant Deliver(results, callback) ==
        Delivery(delivered + Deliver(results[j..], callback).calls, Deliver(results[j..], callback).stopped)
    {
      var c := Call(results[j].0, results[j].1, callback(results[j].1));
      assert results[j..][1..] == results[j + 1..];
      delivered := delivered + [c];
      if Stops(c.outcome) {
        stopped := true;
        return;
      }
      j := j + 1;
    }
    stopped := false;
  }

  lemma JoinJoin(calls: seq<Call>, current: nat, delivered: seq<Call>, threads: nat, r: Run)
    ensures Join(calls, current, Join(delivered, threads, r)) == Join(calls + delivered, current + threads, r)
  {
    assert calls + (delivered + r.calls) == (calls + delivered) + r.calls;
  }

  /** The run from batch q on, from what batch q delivers. */
  lemma RunBatchesStep(queue: seq<seq<string>>, q: nat, proto: string, fetch: string -> Option<Reply>,
                       callback: Reply -> Outcome, threads: nat, delivered: seq<Call>, stopped: bool)
    requires q < |queue|
    requires Delivery(delivered, stopped) == Deliver(Answered(Dedup(queue[q]), proto, fetch), callback)
    ensures RunBatches(queue[q..], proto, fetch, callback, threads) ==
      if stopped then Run(delivered, true, 0)
      else Join(delivered, threads, RunBatches(queue[q + 1..], proto, fetch, callback, threads))
  {
    assert queue[q..][0] == queue[q] && queue[q..][1..] == queue[q + 1..];
  }

  /** `get_url_batch`. */
  method GetUrlBatch(urlList: seq<string>, useSsl: bool, callback: Reply -> Outcome, threads: nat,
                     fetch: string -> Option<Reply>) returns (run: Run)
    requires threads >= 1
    ensures run == UrlBatch(urlList, useSsl, callback, threads, fetch)
  {
    var queue := Chunks(urlList, threads);
    var proto := Proto(useSsl);
    ghost var whole := RunBatches(queue, proto, fetch, callback, threads);
    assert queue[0..] == queue;
    var calls: seq<Call> := [];
    var current: nat := 0;
    var q := 0;
    while q < |queue|
      invariant 0 <= q <= |queue|
      invariant whole == Join(calls, current, RunBatches(queue[q..], proto, fetch, callback, threads))
    {
      var results := GatherBatch(queue[q], proto, fetch);
      var delivered, stopped := DeliverBatch(results, callback);
      RunBatchesStep(queue, q, proto, fetch, callback, threads, delivered, stopped);
      if stopped {
        run := Run(calls + delivered, true, current);
        return;
      }
      JoinJoin(calls, current, delivered, threads, RunBatches(queue[q + 1..], proto, fetch, callback, threads));
      calls := calls + delivered;
      current := current + threads;
      q := q + 1;
    }
    run := Run(calls, false, current);
  }

  function UrlsOf(calls: seq<Call>): seq<string> {
    seq(|calls|, i requires 0 <= i < |calls| => calls[i].url)
  }

  function KeysOf(results: seq<(string, Reply)>): seq<string> {
    seq(|results|, i requires 0 <= i < |results| => results[i].0)
  }

  /** The results of a batch are its URLs whose request succeeded, in key
      order, each with the reply of its own request. */
  lemma {:induction false} AnsweredIsFiltered(keys: seq<string>, proto: string, fetch: string -> Option<Reply>)
    ensures KeysOf(Answered(keys, proto, fetch)) == Filter(keys, k => fetch(proto + k).Some?)
    ensures forall i | 0 <= i < |Answered(keys, proto, fetch)| ::
      fetch(proto + Answered(keys, proto, fetch)[i].0) == Some(Answered(keys, proto, fetch)[i].1)
  {
    if keys != [] {
      AnsweredIsFiltered(keys[..|keys| - 1], proto, fetch);
    }
  }

  /** The callback sees the results in order, without gaps, as far as the
      stop; all of them when nothing stops. */
  lemma {:induction false} DeliverIsPrefix(results: seq<(string, Reply)>, callback: Reply -> Outcome)
    ensures UrlsOf(Deliver(results, callback).calls) <= KeysOf(results)
    ensures !Deliver(results, callback).stopped ==> UrlsOf(Deliver(results, callback).calls) == KeysOf(results)
  {
    if results != [] {
      var rest := Deliver(results[1..], callback);
      DeliverIsPrefix(results[1..], callback);
      assert KeysOf(results) == [results[0].0] + KeysOf(results[1..]);
      if !Stops(callback(results[0].1)) {
        assert UrlsOf(Deliver(results, callback).calls) == [results[0].0] + UrlsOf(rest.calls);
      }
    }
  }

  /** Call i hands over result i's reply and records the callback's decision on it. */
  lemma {:induction false} DeliverReplies(results: seq<(string, Reply)>, callback: Reply -> Outcome)
    ensures |Deliver(results, callback).calls| <= |results|
    ensures forall i | 0 <= i < |Deliver(results, callback).calls| ::
      Deliver(results, callback).calls[i] == Call(results[i].0, results[i].1, callback(results[i].1))
  {
    if results != [] {
      DeliverReplies(results[1..], callback);
    }
  }

  /** Only the last call may stop, and delivery stopped exactly when it did. */
  lemma {:induction false} DeliverStopsLast(results: seq<(string, Reply)>, callback: Reply -> Outcome)
    ensures var d := Deliver(results, callback);
      && (d.stopped <==> d.calls != [] && Stops(d.calls[|d.calls| - 1].outcome))
      && (forall i | 0 <= i < |d.calls| - 1 :: !Stops(d.calls[i].outcome))
  {
    if results != [] {
      DeliverStopsLast(results[1..], callback);
    }
  }

  lemma FilterNoDups(s: seq<string>, keep: string -> bool)
    requires NoDups(s)
    ensures NoDups(Filter(s, keep))
  {
    if s != [] {
      var init := s[..|s| - 1];
      FilterNoDups(init, keep);
      FilterMembership(init, keep, s[|s| - 1]);
    }
  }

  /** Within one batch the callback gets at most one call per distinct URL,
      in first-occurrence order, only for URLs whose request succeeded; when
      nothing stops, every such URL gets its call. */
  lemma BatchDelivery(batch: seq<string>, proto: string, fetch: string -> Option<Reply>, callback: Reply -> Outcome)
    ensures var d := Deliver(Answered(Dedup(batch), proto, fetch), callback);
      && NoDups(UrlsOf(d.calls))
      && UrlsOf(d.calls) <= Filter(Dedup(batch), k => fetch(proto + k).Some?)
      && (!d.stopped ==> UrlsOf(d.calls) == Filter(Dedup(batch), k => fetch(proto + k).Some?))
      && (forall i | 0 <= i < |d.calls| :: fetch(proto + d.calls[i].url) == Some(d.calls[i].reply))
  {
    var results := Answered(Dedup(batch), proto, fetch);
    var d := Deliver(results, callback);
    AnsweredIsFiltered(Dedup(batch), proto, fetch);
    DeliverIsPrefix(results, callback);
    DeliverReplies(results, callback);
    DedupFacts(batch);
    FilterNoDups(Dedup(batch), k => fetch(proto + k).Some?);
    var us := UrlsOf(d.calls);
    var ks := KeysOf(results);
    assert forall i | 0 <= i < |us| :: us[i] == ks[i];
  }

  /** Over a whole run no call follows a call that stops. */
  lemma {:induction false} RunStopsOnlyLast(batches: seq<seq<string>>, proto: string, fetch: string -> Option<Reply>,
                                            callback: Reply -> Outcome, threads: nat)
    ensures forall i | 0 <= i < |RunBatches(batches, proto, fetch, callback, threads).calls| - 1 ::
      !Stops(RunBatches(batches, proto, fetch, callback, threads).calls[i].outcome)
  {
    if batches != [] {
      var d := Deliver(Answered(Dedup(batches[0]), proto, fetch), callback);
      DeliverStopsLast(Answered(Dedup(batches[0]), proto, fetch), callback);
      if !d.stopped {
        var rest := RunBatches(batches[1..], proto, fetch, callback, threads);
        RunStopsOnlyLast(batches[1..], proto, fetch, callback, threads);
        assert forall k | 0 <= k < |rest.calls| - 1 :: !Stops(rest.calls[k].outcome);
        var calls := d.calls + rest.calls;
        forall i | 0 <= i < |calls| - 1
          ensures !Stops(calls[i].outcome)
        {
          if i >= |d.calls| {
            assert calls[i] == rest.calls[i - |d.calls|];
          } else {
            assert calls[i] == d.calls[i];
            assert d.calls != [] ==> !Stops(d.calls[|d.calls| - 1].outcome);
          }
        }
      }
    }
  }

  /** A run returns early exactly when its last call stops. */
  lemma {:induction false} RunStoppedByLast(batches: seq<seq<string>>, proto: string, fetch: string -> Option<Reply>,
                                            callback: Reply -> Outcome, threads: nat)
    ensures var r := RunBatches(batches, proto, fetch, callback, threads);
      r.stopped <==> r.calls != [] && Stops(r.calls[|r.calls| - 1].outcome)
  {
    if batches != [] {
      var d := Deliver(Answered(Dedup(batches[0]), proto, fetch), callback);
      DeliverStopsLast(Answered(Dedup(batches[0]), proto, fetch), callback);
      if !d.stopped {
        var rest := RunBatches(batches[1..], proto, fetch, callback, threads);
        RunStoppedByLast(batches[1..], proto, fetch, callback, threads);
        var calls := d.calls + rest.calls;
        if rest.calls != [] {
          assert calls[|calls| - 1] == rest.calls[|rest.calls| - 1];
        }
      }
    }
  }

  /** Every call of a run is for a requested URL whose request succeeded,
      with that request's reply and the callback's decision on it. */
  lemma {:induction false} RunCallsAnswered(batches: seq<seq<string>>, proto: string, fetch: string -> Option<Reply>,
                                            callback: Reply -> Outcome, threads: nat)
    ensures forall c | c in RunBatches(batches, proto, fetch, callback, threads).calls ::
      && c.url in Flatten(batches)
      && fetch(proto + c.url) == Some(c.reply)
      && c.outcome == callback(c.reply)
  {
    if batches != [] {
      var b := batches[0];
      var results := Answered(Dedup(b), proto, fetch);
      var d := Deliver(results, callback);
      AnsweredIsFiltered(Dedup(b), proto, fetch);
      DeliverReplies(results, callback);
      DedupFacts(b);
      var tail := batches[1..];
      FlattenCons(b, tail);
      assert batches == [b] + tail;
      forall c | c in d.calls
        ensures c.url in b
        ensures fetch(proto + c.url) == Some(c.reply)
        ensures c.outcome == callback(c.reply)
      {
        var i :| 0 <= i < |d.calls| && d.calls[i] == c;
        assert c.url == KeysOf(results)[i];
        FilterMembership(Dedup(b), k => fetch(proto + k).Some?, c.url);
      }
      if !d.stopped {
        RunCallsAnswered(tail, proto, fetch, callback, threads);
      }
    }
  }

  /** The counter gains `threads` per batch fully delivered. */
  lemma {:induction false} RunProgress(batches: seq<seq<string>>, proto: string, fetch: string -> Option<Reply>,
                                       callback: Reply -> Outcome, threads: nat)
    ensures var r := RunBatches(batches, proto, fetch, callback, threads);
      && (!r.stopped ==> r.progress == threads * |batches|)
      && r.progress <= threads * |batches|
  {
    if batches != [] {
      RunProgress(batches[1..], proto, fetch, callback, threads);
      assert threads * |batches| == threads + threads * |batches[1..]|;
    }
  }

  /** The URLs handed to the callback and their replies, stated for `get_url_batch`'s inputs. */
  lemma UrlBatchFacts(urls: seq<string>, useSsl: bool, callback: Reply -> Outcome, threads: nat,
                      fetch: string -> Option<Reply>)
    requires threads >= 1
    ensures var r := UrlBatch(urls, useSsl, callback, threads, fetch);
      && (forall i | 0 <= i < |r.calls| - 1 :: !Stops(r.calls[i].outcome))
      && (r.stopped <==> r.calls != [] && Stops(r.calls[|r.calls| - 1].outcome))
      && (forall c | c in r.calls ::
            c.url in urls
            && fetch(Proto(useSsl) + c.url) == Some(c.reply)
            && c.outcome == callback(c.reply))
      && (!r.stopped ==> |urls| <= r.progress < |urls| + threads)
  {
    var batches := Chunks(urls, threads);
    RunStopsOnlyLast(batches, Proto(useSsl), fetch, callback, threads);
    RunStoppedByLast(batches, Proto(useSsl), fetch, callback, threads);
    RunCallsAnswered(batches, Proto(useSsl), fetch, callback, threads);
    RunProgress(batches, Proto(useSsl), fetch, callback, threads);
    ChunksFlatten(urls, threads);
    ChunksCount(urls, threads);
  }

  lemma {:induction false} NoneAnswered(keys: seq<string>, proto: string, fetch: string -> Option<Reply>)
    requires forall k | k in keys :: fetch(proto + k).None?
    ensures Answered(keys, proto, fetch) == []
  {
    if keys != [] {
      NoneAnswered(keys[..|keys| - 1], proto, fetch);
    }
  }

  /** The progress counter overshoots on a short last batch: six URLs in
      batches of five, none answering, end at 10. */
  lemma ProgressOvershoots(urls: seq<string>, callback: Reply -> Outcome, fetch: string -> Option<Reply>)
    requires |urls| == 6
    requires forall u | u in urls :: fetch("http://" + u).None?
    ensures UrlBatch(urls, false, callback, 5, fetch) == Run([], false, 10)
  {
    var b0, b1 := urls[..5], urls[5..];
    assert Chunks(b1, 5) == [b1];
    assert Chunks(urls, 5) == [b0] + [b1];
    var d0, d1 := Dedup(b0), Dedup(b1);
    DedupFacts(b0);
    DedupFacts(b1);
    assert forall u | u in b0 :: u in urls;
    assert forall u | u in b1 :: u in urls;
    NoneAnswered(d0, "http://", fetch);
    NoneAnswered(d1, "http://", fetch);
    var last := RunBatches([b1], "http://", fetch, callback, 5);
    assert [b1][0] == b1 && [b1][1..] == [];
    assert Deliver(Answered(Dedup(b1), "http://", fetch), callback) == Delivery([], false);
    assert RunBatches([], "http://", fetch, callback, 5) == Run([], false, 0);
    assert last.stopped == false;
    assert last.calls == [];
    assert last.progress == 5;
    assert last == Run([], false, 5);
    assert ([b0] + [b1])[1..] == [b1];
  }

  /** `dns_lookup`: the name when it resolves, '' on NXDOMAIN. */
  function DnsLookup(resolves: string -> bool, name: string): (r: string)
    ensures resolves(name) ==> r == name
    ensures !resolves(name) ==> r == ""
  {
    if resolves(name) then name else ""
  }

  /** The names `fast_dns_lookup` keeps: resolved and non-empty (an empty
      result is falsy and skipped). */
  predicate Kept(resolves: string -> bool, name: string) {
    resolves(name) && name != ""
  }

  /** One batch of `fast_dns_lookup`: `pool.map(dns_lookup, ...)`, then the
      truthy results in batch order. */
  method ResolveBatch(batch: seq<string>, resolves: string -> bool) returns (kept: seq<string>)
    ensures kept == Filter(batch, n => Kept(resolves, n))
  {
    var results := seq(|batch|, i requires 0 <= i < |batch| => DnsLookup(resolves, batch[i]));
    kept := [];
    for i := 0 to |results|
      invariant kept == Filter(batch[..i], n => Kept(resolves, n))
    {
      assert batch[..i + 1][..i] == batch[..i];
      if results[i] != "" {
        kept := kept + [results[i]];
      }
    }
    assert batch[..|batch|] == batch;
  }

  /** `fast_dns_lookup`. `withCallback` says whether a callback was passed;
      `reported` lists the names it was called with, in call order. */
  method FastDnsLookup(names: seq<string>, resolves: string -> bool, withCallback: bool, threads: nat)
    returns (validNames: seq<string>, reported: seq<string>, progress: nat)
    requires threads >= 1
    ensures validNames == Filter(names, n => Kept(resolves, n))
    ensures reported == if withCallback then validNames else []
    ensures progress == threads * |Chunks(names, threads)|
  {
    var queue := Chunks(names, threads);
    validNames, reported, progress := [], [], 0;
    ghost var seen: seq<string> := [];
    for q := 0 to |queue|
      invariant seen == Flatten(queue[..q])
      invariant validNames == Filter(seen, n => Kept(resolves, n))
      invariant reported == if withCallback then validNames else []
      invariant progress == threads * q
    {
      var batch := queue[q];
      var kept := ResolveBatch(batch, resolves);
      if withCallback {
        reported := reported + kept;
      }
      validNames := validNames + kept;
      FilterConcat(seen, batch, n => Kept(resolves, n));
      assert queue[..q + 1][..q] == queue[..q];
      seen := seen + batch;
      assert threads * (q + 1) == threads * q + threads;
      progress := progress + threads;
    }
    assert queue[..|queue|] == queue;
    ChunksFlatten(names, threads);
  }

  /** What `fast_dns_lookup` returns is exactly the kept names of its input,
      in input order: the batching does not show in the result. */
  lemma ResolvedNames(names: seq<string>, resolves: string -> bool, x: string, a: seq<string>, b: seq<string>)
    ensures x in Filter(names, n => Kept(resolves, n)) <==> x in names && resolves(x) && x != ""
    ensures Filter(a + b, n => Kept(resolves, n)) == Filter(a, n => Kept(resolves, n)) + Filter(b, n => Kept(resolves, n))
  {
    FilterMembership(names, n => Kept(resolves, n), x);
    FilterConcat(a, b, n => Kept(resolves, n));
  }

  /** The suffix of s from its first newline on (empty when there is none). */
  function FromNewline(s: string): (r: string)
    ensures |r| <= |s|
    ensures s != [] && s[0] != '\n' ==> |r| < |s|
  {
    if s == [] then [] else if s[0] == '\n' then s else FromNewline(s[1..])
  }

  /** `re.sub(r'(\?.*)', '', bucket)`: each '?' is removed with the rest of its line. */
  function StripQuery(url: string): (r: string)
    ensures forall i | 0 <= i < |r| :: r[i] != '?'
    decreases |url|
  {
    if url == [] then []
    else if url[0] == '?' then StripQuery(FromNewline(url))
    else [url[0]] + StripQuery(url[1..])
  }

  lemma {:induction false} FromNewlineNone(s: string)
    requires forall i | 0 <= i < |s| :: s[i] != '\n'
    ensures FromNewline(s) == []
  {
    if s != [] {
      FromNewlineNone(s[1..]);
    }
  }

  lemma {:induction false} StripQueryKeeps(a: string, b: string)
    requires forall i | 0 <= i < |a| :: a[i] != '?'
    ensures StripQuery(a + b) == a + StripQuery(b)
  {
    if a != [] {
      assert (a + b)[1..] == a[1..] + b;
      StripQueryKeeps(a[1..], b);
    } else {
      assert a + b == b;
    }
  }

  /** On a one-line URL the query string is cut at the first '?'. */
  lemma StripQueryCuts(a: string, b: string)
    requires forall i | 0 <= i < |a| :: a[i] != '?'
    requires forall i | 0 <= i < |b| :: b[i] != '\n'
    ensures StripQuery(a + "?" + b) == a
  {
    assert a + "?" + b == a + ("?" + b);
    StripQueryKeeps(a, "?" + b);
    assert ("?" + b)[1..] == b;
    FromNewlineNone(b);
    assert FromNewline("?" + b) == [];
  }

  /** `list_bucket_contents`: the file URLs printed for the keys found in a listing. */
  function BucketFileUrls(bucket: string, keys: seq<string>): seq<string> {
    seq(|keys|, i requires 0 <= i < |keys| => StripQuery(bucket) + keys[i])
  }

  /** An Azure container listing URL loses its query before the file names are appended. */
  lemma ContainerListingUrls(account: string, container: string, keys: seq<string>)
    requires forall i | 0 <= i < |account + "/" + container + "/"| :: (account + "/" + container + "/")[i] != '?'
    ensures BucketFileUrls(account + "/" + container + "/?restype=container&comp=list", keys)
      == seq(|keys|, i requires 0 <= i < |keys| => account + "/" + container + "/" + keys[i])
  {
    var a := account + "/" + container + "/";
    var b := "restype=container&comp=list";
    var url := account + "/" + container + "/?restype=container&comp=list";
    assert url == a + "?" + b;
    StripQueryCuts(a, b);
    assert StripQuery(url) == a;
  }
}
