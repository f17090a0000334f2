/** Serving a stored file (`GET /f/:filename` in index.js): look the row up
    by file name, fetch the bytes from the primary backend, fall back to
    the others, and stream the first successful response with the file's
    headers. The database lookup and every `fetch` are inputs: `fetch(k,
    url)` is the outcome of the `k`-th fetch of the request. */
module Retrieval {
  import opened Values
  import opened Text
  import opened Store
  import opened Uploader
  import opened Upload

  /** A settled `fetch(url)`: it threw, or a response with this status came
      back. */
  datatype FetchAnswer = FetchThrew(message: string) | Responded(status: int)

  /** `response.ok`: a status in the 2xx range. */
  predicate OkStatus(status: int)
  {
    200 <= status <= 299
  }

  /** The fetch came back with an ok response. */
  predicate IsOk(answer: FetchAnswer)
  {
    answer.Responded? && OkStatus(answer.status)
  }

  datatype Header = Header(name: string, value: string)

  /** What the route sends: a status with a text body, or the headers
      followed by the body of the response of fetch number `source`. */
  datatype FileResponse = Plain(status: int, text: string) | Streamed(headers: seq<Header>, source: nat)

  const ServerError := "Internal server error"
  const NotFound := "File not found"
  const AllFailed := "Error fetching file from storage - all providers failed"
  const DefaultType := "application/octet-stream"
  const CachePolicy := "public, max-age=31536000"

  /** A backend to fetch from, with the name `X-Served-By` reports. */
  datatype Source = Source(provider: string, url: string)

  /** The backend the row names as primary, when its URL is set. */
  function PrimarySource(f: FileRecord): (s: Option<Source>)
    ensures s.Some? <==> (f.primaryProvider == "cloudsky" && Truthy(f.cloudSkyUrl))
                         || (f.primaryProvider == "catbox" && Truthy(f.catboxUrl))
    ensures s.Some? ==> s.value.provider == f.primaryProvider
    ensures s.Some? ==> Some(s.value.url) == (if f.primaryProvider == "cloudsky" then f.cloudSkyUrl else f.catboxUrl)
  {
    if f.primaryProvider == "cloudsky" && Truthy(f.cloudSkyUrl) then Some(Source("cloudsky", f.cloudSkyUrl.value))
    else if f.primaryProvider == "catbox" && Truthy(f.catboxUrl) then Some(Source("catbox", f.catboxUrl.value))
    else None
  }

  function PrimaryPart(f: FileRecord): (part: seq<Source>)
    ensures |part| <= 1
  {
    if PrimarySource(f).Some? then [PrimarySource(f).value] else []
  }

  function CatboxPart(f: FileRecord): (part: seq<Source>)
    ensures |part| <= 1
  {
    if Truthy(f.catboxUrl) then [Source("catbox", f.catboxUrl.value)] else []
  }

  function CloudSkyPart(f: FileRecord): (part: seq<Source>)
    ensures |part| <= 1
  {
    if Truthy(f.cloudSkyUrl) then [Source("cloudsky", f.cloudSkyUrl.value)] else []
  }

  /** The order in which the route fetches until a response is ok: the
      primary, then Catbox, then CloudSky, each only when its URL is set.
      The backup steps do not skip the primary: a primary that failed is
      fetched a second time. */
  function FailoverPlan(f: FileRecord): (plan: seq<Source>)
    ensures |plan| <= 3
  {
    PrimaryPart(f) + CatboxPart(f) + CloudSkyPart(f)
  }

  /** Where each source sits in the plan. */
  lemma PlanLayout(f: FileRecord)
    ensures var plan, p, c := FailoverPlan(f), |PrimaryPart(f)|, |CatboxPart(f)|;
            && |plan| == p + c + |CloudSkyPart(f)|
            && (PrimarySource(f).Some? <==> p == 1)
            && (PrimarySource(f).Some? ==> plan[0] == PrimarySource(f).value)
            && (Truthy(f.catboxUrl) <==> c == 1)
            && (Truthy(f.catboxUrl) ==> plan[p] == Source("catbox", f.catboxUrl.value))
            && (Truthy(f.cloudSkyUrl) <==> |CloudSkyPart(f)| == 1)
            && (Truthy(f.cloudSkyUrl) ==> plan[p + c] == Source("cloudsky", f.cloudSkyUrl.value))
  {
  }

  /** The fetches made from plan position `i` on (fetch number `i` goes to
      position `i`): each source in turn, up to and including the first
      one whose response is ok. */
  function TriedFrom(plan: seq<Source>, fetch: (nat, string) -> FetchAnswer, i: nat): (tried: seq<Source>)
    requires i <= |plan|
    ensures |tried| <= |plan| - i && tried == plan[i..i + |tried|]
    ensures tried == [] <==> i == |plan|
    decreases |plan| - i
  {
    if i == |plan| then []
    else if IsOk(fetch(i, plan[i].url)) then [plan[i]]
    else [plan[i]] + TriedFrom(plan, fetch, i + 1)
  }

  function Tried(plan: seq<Source>, fetch: (nat, string) -> FetchAnswer): seq<Source>
  {
    TriedFrom(plan, fetch, 0)
  }

  /** The failover ended with an ok response: the last fetch made. */
  predicate Served(plan: seq<Source>, fetch: (nat, string) -> FetchAnswer)
  {
    var tried := Tried(plan, fetch);
    tried != [] && IsOk(fetch(|tried| - 1, tried[|tried| - 1].url))
  }

  /** No fetch from position `i` to `n` (exclusive) got an ok response. */
  predicate FailedBetween(plan: seq<Source>, fetch: (nat, string) -> FetchAnswer, i: nat, n: nat)
    requires i <= n <= |plan|
  {
    forall j | i <= j < n :: !IsOk(fetch(j, plan[j].url))
  }

  /** The fetches stop at the first ok response: those from position `i`
      are the plan's sources up to and including position `n`. */
  lemma {:induction false} StopsAtFirstOk(plan: seq<Source>, fetch: (nat, string) -> FetchAnswer, i: nat, n: nat)
    requires i <= n < |plan|
    requires FailedBetween(plan, fetch, i, n) && IsOk(fetch(n, plan[n].url))
    ensures |TriedFrom(plan, fetch, i)| == n + 1 - i
    decreases n - i
  {
    if i < n {
      assert !IsOk(fetch(i, plan[i].url));
      StopsAtFirstOk(plan, fetch, i + 1, n);
    }
  }

  /** When every fetch fails, every source of the plan is fetched. */
  lemma {:induction false} ExhaustsWhenAllFail(plan: seq<Source>, fetch: (nat, string) -> FetchAnswer, i: nat)
    requires i <= |plan|
    requires FailedBetween(plan, fetch, i, |plan|)
    ensures |TriedFrom(plan, fetch, i)| == |plan| - i
    decreases |plan| - i
  {
    if i < |plan| {
      assert !IsOk(fetch(i, plan[i].url));
      ExhaustsWhenAllFail(plan, fetch, i + 1);
    }
  }

  /** The file is served exactly when some source of the plan answers ok,
      and then by the first such source. */
  lemma {:induction false} ServedIffSomeOk(plan: seq<Source>, fetch: (nat, string) -> FetchAnswer)
    ensures Served(plan, fetch) <==> exists j | 0 <= j < |plan| :: IsOk(fetch(j, plan[j].url))
    ensures Served(plan, fetch) ==>
              var n := |Tried(plan, fetch)| - 1;
              FailedBetween(plan, fetch, 0, n) && IsOk(fetch(n, plan[n].url))
  {
    if exists j | 0 <= j < |plan| :: IsOk(fetch(j, plan[j].url)) {
      var n := FirstOk(plan, fetch, 0);
      StopsAtFirstOk(plan, fetch, 0, n);
      assert Tried(plan, fetch) == plan[..n + 1];
    } else {
      ExhaustsWhenAllFail(plan, fetch, 0);
      assert Tried(plan, fetch) == plan;
      if plan != [] {
        assert !IsOk(fetch(|plan| - 1, plan[|plan| - 1].url));
      }
    }
  }

  /** The first plan position from `i` on whose fetch answers ok. */
  function FirstOk(plan: seq<Source>, fetch: (nat, string) -> FetchAnswer, i: nat): (n: nat)
    requires i <= |plan|
    requires exists j | i <= j < |plan| :: IsOk(fetch(j, plan[j].url))
    ensures i <= n < |plan| && IsOk(fetch(n, plan[n].url)) && FailedBetween(plan, fetch, i, n)
    decreases |plan| - i
  {
    if IsOk(fetch(i, plan[i].url)) then i
    else
      assert exists j | i + 1 <= j < |plan| :: IsOk(fetch(j, plan[j].url));
      FirstOk(plan, fetch, i + 1)
  }

  /** A Catbox primary that does not answer ok is fetched again at once:
      the backup step at index.js:148 repeats it. */
  lemma FailedCatboxPrimaryRetriedAtOnce(f: FileRecord, fetch: (nat, string) -> FetchAnswer)
    requires f.primaryProvider == "catbox" && Truthy(f.catboxUrl)
    requires !IsOk(fetch(0, f.catboxUrl.value))
    ensures var tried := Tried(FailoverPlan(f), fetch);
            |tried| >= 2 && tried[0] == Source("catbox", f.catboxUrl.value) && tried[1] == tried[0]
  {
    var plan := FailoverPlan(f);
    PlanLayout(f);
    assert TriedFrom(plan, fetch, 0) == [plan[0]] + TriedFrom(plan, fetch, 1);
  }

  /** A CloudSky primary is not fetched again when the Catbox backup
      answers ok: the fetches are CloudSky then Catbox, and the file is
      served. */
  lemma CatboxBackupSparesCloudSkyPrimary(f: FileRecord, fetch: (nat, string) -> FetchAnswer)
    requires f.primaryProvider == "cloudsky" && Truthy(f.cloudSkyUrl) && Truthy(f.catboxUrl)
    requires !IsOk(fetch(0, f.cloudSkyUrl.value)) && IsOk(fetch(1, f.catboxUrl.value))
    ensures Tried(FailoverPlan(f), fetch) ==
            [Source("cloudsky", f.cloudSkyUrl.value), Source("catbox", f.catboxUrl.value)]
    ensures Served(FailoverPlan(f), fetch)
  {
    var plan := FailoverPlan(f);
    PlanLayout(f);
    StopsAtFirstOk(plan, fetch, 0, 1);
    assert Tried(plan, fetch) == plan[..2];
  }

  /** When no backend answers ok, a row whose primary is set has that
      primary fetched twice: first as primary, then again as a backup.
      (With a CloudSky primary and an ok Catbox backup it is fetched only
      once: `CatboxBackupSparesCloudSkyPrimary`.) */
  lemma FailedPrimaryIsRefetched(f: FileRecord, fetch: (nat, string) -> FetchAnswer)
    requires PrimarySource(f).Some?
    requires FailedBetween(FailoverPlan(f), fetch, 0, |FailoverPlan(f)|)
    ensures Tried(FailoverPlan(f), fetch) == FailoverPlan(f) && !Served(FailoverPlan(f), fetch)
    ensures var tried := Tried(FailoverPlan(f), fetch);
            tried[0] == PrimarySource(f).value
            && exists j | 1 <= j < |tried| :: tried[j] == PrimarySource(f).value
  {
    var plan := FailoverPlan(f);
    PlanLayout(f);
    ExhaustsWhenAllFail(plan, fetch, 0);
    ServedIffSomeOk(plan, fetch);
    if f.primaryProvider == "cloudsky" {
      assert plan[1 + |CatboxPart(f)|] == PrimarySource(f).value;
    } else {
      assert plan[1] == PrimarySource(f).value;
    }
  }

  /** Both backends up in the row but both answering 500: CloudSky, then
      Catbox, then CloudSky again, and no file. */
  lemma BothBackendsDown(f: FileRecord, fetch: (nat, string) -> FetchAnswer)
    requires f.primaryProvider == "cloudsky" && Truthy(f.cloudSkyUrl) && Truthy(f.catboxUrl)
    requires forall k: nat, url: string :: fetch(k, url) == Responded(500)
    ensures var cloudSky, catbox := Source("cloudsky", f.cloudSkyUrl.value), Source("catbox", f.catboxUrl.value);
            Tried(FailoverPlan(f), fetch) == [cloudSky, catbox, cloudSky]
    ensures !Served(FailoverPlan(f), fetch)
  {
    var plan := FailoverPlan(f);
    PlanLayout(f);
    ExhaustsWhenAllFail(plan, fetch, 0);
    ServedIffSomeOk(plan, fetch);
  }

  /** A row written by an upload names as primary a backend whose URL is
      set, so that backend is fetched first, and alone when it answers ok. */
  lemma UploadedRowTriesPrimaryFirst(ctx: CommitContext, fileName: string, cloudSky: Result<string>,
                                     catbox: Result<string>, fetch: (nat, string) -> FetchAnswer)
    requires CombineOutcomes(cloudSky, catbox) == Success(ctx.rep)
    ensures var row := RowFor(ctx, fileName);
            var primary := Source(ProviderName(ctx.rep.primaryProvider), UrlOf(ctx.rep, ctx.rep.primaryProvider).value);
            && PrimarySource(row) == Some(primary)
            && Tried(FailoverPlan(row), fetch)[0] == primary
            && (IsOk(fetch(0, primary.url)) ==> Tried(FailoverPlan(row), fetch) == [primary] && Served(FailoverPlan(row), fetch))
  {
    var row := RowFor(ctx, fileName);
    PlanLayout(row);
  }

  /** The headers of a served file. The content type falls back to the
      generic binary type when the row's `mimetype` is null or empty. */
  function FileHeaders(f: FileRecord, provider: string): (headers: seq<Header>)
    ensures |headers| == 6
    ensures headers[0] == Header("Content-Type", if Truthy(f.mimetype) then f.mimetype.value else DefaultType)
    ensures headers[0].value != ""
    ensures headers[1] == Header("Content-Length", Decimal(f.size))
    ensures headers[5] == Header("X-Served-By", provider)
  {
    [ Header("Content-Type", if Truthy(f.mimetype) then f.mimetype.value else DefaultType),
      Header("Content-Length", Decimal(f.size)),
      Header("Content-Disposition", "inline; filename=\"" + f.originalName + "\""),
      Header("Cache-Control", CachePolicy),
      Header("Accept-Ranges", "bytes"),
      Header("X-Served-By", provider) ]
  }

  /** The `Content-Length` header reads back as the stored size. */
  lemma ContentLengthIsSize(f: FileRecord, provider: string)
    ensures AllDigits(FileHeaders(f, provider)[1].value)
    ensures DigitsValue(FileHeaders(f, provider)[1].value) == f.size
  {
    DecimalRoundTrip(f.size);
  }

  /** `response && response.ok`, with `response` the status of the latest
      response (`None` for `null`). */
  predicate ResponseOk(response: Option<int>)
  {
    response.Some? && OkStatus(response.value)
  }

  /** One `try { response = await fetch(url); if (response.ok) usedProvider
      = ... } catch {}` block: a thrown fetch leaves `response` as it was. */
  method TryFetch(fetch: (nat, string) -> FetchAnswer, source: Source, response: Option<int>,
                  usedProvider: Option<string>, fetched: seq<Source>)
    returns (response': Option<int>, usedProvider': Option<string>, fetched': seq<Source>)
    ensures fetched' == fetched + [source]
    ensures response' == (if fetch(|fetched|, source.url).Responded?
                          then Some(fetch(|fetched|, source.url).status) else response)
    ensures IsOk(fetch(|fetched|, source.url)) ==> ResponseOk(response') && usedProvider' == Some(source.provider)
    ensures !IsOk(fetch(|fetched|, source.url)) ==>
              && usedProvider' == usedProvider
              && (ResponseOk(response') <==> fetch(|fetched|, source.url).FetchThrew? && ResponseOk(response))
  {
    var answer := fetch(|fetched|, source.url);
    fetched' := fetched + [source];
    response', usedProvider' := response, usedProvider;
    if answer.Responded? {
      response' := Some(answer.status);
      if ResponseOk(response') {
        usedProvider' := Some(source.provider);
      }
    }
  }

  /** The state after `n` fetches that follow the plan: the sources fetched
      are the plan's first `n`; the response is ok exactly when the last
      one answered ok, which then names the provider used; before it, every
      fetch failed. */
  predicate Following(plan: seq<Source>, fetch: (nat, string) -> FetchAnswer, fetched: seq<Source>,
                      response: Option<int>, usedProvider: Option<string>)
  {
    var n := |fetched|;
    && n <= |plan| && fetched == plan[..n]
    && (ResponseOk(response) ==> n > 0 && FailedBetween(plan, fetch, 0, n - 1)
                                   && IsOk(fetch(n - 1, plan[n - 1].url))
                                   && usedProvider == Some(plan[n - 1].provider))
    && (!ResponseOk(response) ==> FailedBetween(plan, fetch, 0, n) && usedProvider.None?)
  }

  /** One more fetch of the next planned source, made while no response is
      ok yet, keeps the state following the plan. */
  lemma FollowingStep(plan: seq<Source>, fetch: (nat, string) -> FetchAnswer, fetched: seq<Source>,
                      response: Option<int>, usedProvider: Option<string>,
                      response': Option<int>, usedProvider': Option<string>)
    requires Following(plan, fetch, fetched, response, usedProvider) && !ResponseOk(response)
    requires |fetched| < |plan|
    requires IsOk(fetch(|fetched|, plan[|fetched|].url)) ==>
               ResponseOk(response') && usedProvider' == Some(plan[|fetched|].provider)
    requires !IsOk(fetch(|fetched|, plan[|fetched|].url)) ==> !ResponseOk(response') && usedProvider' == usedProvider
    ensures Following(plan, fetch, fetched + [plan[|fetched|]], response', usedProvider')
  {
    assert fetched + [plan[|fetched|]] == plan[..|fetched| + 1];
  }

  /** Following the plan and holding an ok response: the failover is over
      and served by the provider of the last fetch. */
  lemma ConcludeServed(plan: seq<Source>, fetch: (nat, string) -> FetchAnswer, fetched: seq<Source>,
                       response: Option<int>, usedProvider: Option<string>)
    requires Following(plan, fetch, fetched, response, usedProvider) && ResponseOk(response)
    ensures Tried(plan, fetch) == fetched && Served(plan, fetch)
    ensures usedProvider == Some(fetched[|fetched| - 1].provider)
  {
    StopsAtFirstOk(plan, fetch, 0, |fetched| - 1);
  }

  /** Following the plan to its end without an ok response: every source
      was fetched and the file is not served. */
  lemma ConcludeFailed(plan: seq<Source>, fetch: (nat, string) -> FetchAnswer, fetched: seq<Source>,
                       response: Option<int>, usedProvider: Option<string>)
    requires Following(plan, fetch, fetched, response, usedProvider) && !ResponseOk(response)
    requires |fetched| == |plan|
    ensures Tried(plan, fetch) == fetched && !Served(plan, fetch)
  {
    assert fetched == plan;
    ExhaustsWhenAllFail(plan, fetch, 0);
    ServedIffSomeOk(plan, fetch);
  }

  /** The primary step: fetch the backend the row names as primary, when
      its URL is set. */
  method FetchPrimary(file: FileRecord, fetch: (nat, string) -> FetchAnswer)
    returns (response: Option<int>, usedProvider: Option<string>, fetched: seq<Source>)
    ensures Following(FailoverPlan(file), fetch, fetched, response, usedProvider)
    ensures |fetched| == |PrimaryPart(file)|
  {
    PlanLayout(file);
    response, usedProvider, fetched := None, None, [];
    if file.primaryProvider == "cloudsky" && Truthy(file.cloudSkyUrl) {
      response, usedProvider, fetched :=
        TryFetch(fetch, Source("cloudsky", file.cloudSkyUrl.value), response, usedProvider, fetched);
      FollowingStep(FailoverPlan(file), fetch, [], None, None, response, usedProvider);
    } else if file.primaryProvider == "catbox" && Truthy(file.catboxUrl) {
      response, usedProvider, fetched :=
        TryFetch(fetch, Source("catbox", file.catboxUrl.value), response, usedProvider, fetched);
      FollowingStep(FailoverPlan(file), fetch, [], None, None, response, usedProvider);
    } else {
      assert fetched == FailoverPlan(file)[..0];
    }
  }

  /** The backup step, taken when the primary gave no ok response: Catbox
      unless it already served, then CloudSky unless it already served.
      The `usedProvider` guards never skip a fetch, since no provider has
      served while the response is not ok. */
  method FetchBackups(file: FileRecord, fetch: (nat, string) -> FetchAnswer, response: Option<int>,
                      usedProvider: Option<string>, fetched: seq<Source>)
    returns (response': Option<int>, usedProvider': Option<string>, fetched': seq<Source>)
    requires Following(FailoverPlan(file), fetch, fetched, response, usedProvider)
    requires |fetched| == |PrimaryPart(file)| && !ResponseOk(response)
    ensures Following(FailoverPlan(file), fetch, fetched', response', usedProvider')
    ensures !ResponseOk(response') ==> |fetched'| == |FailoverPlan(file)|
  {
    ghost var plan := FailoverPlan(file);
    PlanLayout(file);
    response', usedProvider', fetched' := response, usedProvider, fetched;
    if Truthy(file.catboxUrl) && usedProvider' != Some("catbox") {
      response', usedProvider', fetched' :=
        TryFetch(fetch, Source("catbox", file.catboxUrl.value), response', usedProvider', fetched');
      FollowingStep(plan, fetch, fetched, response, usedProvider, response', usedProvider');
    }
    assert |fetched'| == |PrimaryPart(file)| + |CatboxPart(file)|;
    if !ResponseOk(response') && Truthy(file.cloudSkyUrl) && usedProvider' != Some("cloudsky") {
      ghost var before, response0, used0 := fetched', response', usedProvider';
      response', usedProvider', fetched' :=
        TryFetch(fetch, Source("cloudsky", file.cloudSkyUrl.value), response', usedProvider', fetched');
      FollowingStep(plan, fetch, before, response0, used0, response', usedProvider');
    }
  }

  /** The route once the row is found: fail over between the backends
      and stream the first ok response, or answer 502. */
  method ServeRecord(file: FileRecord, fetch: (nat, string) -> FetchAnswer)
    returns (reply: FileResponse, fetched: seq<Source>)
    ensures fetched == Tried(FailoverPlan(file), fetch)
    ensures Served(FailoverPlan(file), fetch) ==>
              reply == Streamed(FileHeaders(file, fetched[|fetched| - 1].provider), |fetched| - 1)
    ensures !Served(FailoverPlan(file), fetch) ==> reply == Plain(502, AllFailed)
  {
    var response, usedProvider;
    response, usedProvider, fetched := FetchPrimary(file, fetch);
    if !ResponseOk(response) {
      response, usedProvider, fetched := FetchBackups(file, fetch, response, usedProvider, fetched);
    }
    if !ResponseOk(response) {
      ConcludeFailed(FailoverPlan(file), fetch, fetched, response, usedProvider);
      return Plain(502, AllFailed), fetched;
    }
    ConcludeServed(FailoverPlan(file), fetch, fetched, response, usedProvider);
    reply := Streamed(FileHeaders(file, usedProvider.value), |fetched| - 1);
  }

  /** `GET /f/:filename`, given the outcome of the SELECT (a thrown error,
      no row, or the row). Returns the reply and the sources fetched, in
      order. */
  method ServeFile(lookup: Result<Option<FileRecord>>, fetch: (nat, string) -> FetchAnswer)
    returns (reply: FileResponse, fetched: seq<Source>)
    ensures lookup.Failure? ==> reply == Plain(500, ServerError) && fetched == []
    ensures lookup == Success(None) ==> reply == Plain(404, NotFound) && fetched == []
    ensures lookup.Success? && lookup.value.Some? ==>
              var plan := FailoverPlan(lookup.value.value);
              && fetched == Tried(plan, fetch)
              && (Served(plan, fetch) ==>
                    reply == Streamed(FileHeaders(lookup.value.value, fetched[|fetched| - 1].provider),
                                      |fetched| - 1))
              && (!Served(plan, fetch) ==> reply == Plain(502, AllFailed))
  {
    fetched := [];
    if lookup.Failure? {
      return Plain(500, ServerError), fetched;
    }
    if lookup.value.None? {
      return Plain(404, NotFound), fetched;
    }
    reply, fetched := ServeRecord(lookup.value.value, fetch);
  }
}
