/** `data_pipeline/mta_fetcher.py`: the NYC Open Data (Socrata) fetcher for
    MTA subway performance. A fetched dataset is the list of row objects
    the API returns; a DataFrame is kept as its labels and row count. */
module Mta {
  import opened Wrappers
  import opened Json
  import opened DateTimes
  import opened Frames
  import opened Effects
  import Config
  import Helpers

  /** `self.datasets`: dataset key to Socrata dataset id. */
  const Datasets: map<string, string> := map[
    "terminal_otp" := "f6rf-2a3t",
    "mean_distance_failures" := "e7fs-9m87",
    "additional_platform_time" := "i9wp-a4ja"]

  /** The query keys `fetch_dataset` can send. */
  const QueryKeys: set<string> := {"$limit", "$order", "$$app_token", "$where"}

  /** Python truthiness of an optional string (`if NYC_APP_TOKEN:`,
      `if where_clause:`). */
  predicate Given(s: Option<string>) {
    s.Some? && s.value != []
  }

  /** What `fetch_all` returns: dataset name to frame, in insertion order. */
  type Results = seq<(string, Frame)>

  /** `{k: len(v) for k, v in results.items()}` as a JSON object. */
  function RecordCounts(results: Results): (counts: Object)
    ensures Keys(counts) == Keys(results)
    ensures forall i :: 0 <= i < |results| ==> counts[i].1 == JInt(Len(results[i].1))
  {
    seq(|results|, i requires 0 <= i < |results| => (results[i].0, JInt(Len(results[i].1))))
  }

  /** A list of strings as a JSON array. */
  function StringArray(names: seq<string>): (a: seq<Json>)
    ensures |a| == |names|
    ensures forall i :: 0 <= i < |names| ==> a[i] == JString(names[i])
  {
    seq(|names|, i requires 0 <= i < |names| => JString(names[i]))
  }

  /** The summary document of `fetch_all`: three members, with one listed
      name and one row count per result. */
  function SummaryDocument(results: Results, isoTime: string): (doc: Json)
    ensures doc.JObject? && |doc.members| == 3
    ensures doc.members[1].1.JArray? && |doc.members[1].1.items| == |results|
    ensures doc.members[2].1.JObject? && |doc.members[2].1.members| == |results|
  {
    JObject([("timestamp", JString(isoTime)),
             ("datasets_fetched", JArray(StringArray(Keys(results)))),
             ("record_counts", JObject(RecordCounts(results)))])
  }

  /** The per-line summary `df.groupby('line').agg({'otp': 'mean'})`: it
      runs only when the frame has a `line` column, and then raises a
      `KeyError` for the missing column when there is no `otp` column (the
      key names the column; pandas' message wording is not kept). It only logs; the frame is
      returned as it was. */
  function OtpSummaryFault(df: Frame): (fault: Option<Fault>)
    ensures fault.Some? <==> "line" in df.columns && "otp" !in df.columns
    ensures fault.Some? ==> fault.value == KeyError("otp")
  {
    if "line" in df.columns && "otp" !in df.columns then Some(KeyError("otp")) else None
  }

  class MtaFetcher {
    const baseUrl: string
    const saveDir: string
    const appToken: Option<string>
    const datasets: map<string, string>

    constructor (env: Config.Environment)
      ensures baseUrl == "https://data.ny.gov/resource"
      ensures saveDir == Join(Config.RawDataDir(env), "mta")
      ensures appToken == env.nycAppToken
      ensures datasets == Datasets
    {
      baseUrl := "https://data.ny.gov/resource";
      saveDir := Join(Config.RawDataDir(env), "mta");
      appToken := env.nycAppToken;
      datasets := Datasets;
    }

    /** The `params` dict of `fetch_dataset`: `$limit` and `$order`, then
        `$$app_token` if the token is set and not empty, then `$where` if
        the clause is set and not empty. */
    function QueryParams(limit: int, whereClause: Option<string>): (params: Object)
      ensures |params| >= 2
      ensures params[0] == ("$limit", JInt(limit)) && params[1] == ("$order", JString(":id"))
    {
      [("$limit", JInt(limit)), ("$order", JString(":id"))]
      + (if Given(appToken) then [("$$app_token", JString(appToken.value))] else [])
      + (if Given(whereClause) then [("$where", JString(whereClause.value))] else [])
    }

    /** `$limit` and `$order` are always sent, `$$app_token` exactly when
        the token is set and not empty, `$where` exactly when the clause is
        set and not empty, each with its value, and nothing else. */
    lemma QueryParamsSpec(limit: int, whereClause: Option<string>)
      ensures var params := QueryParams(limit, whereClause);
              && UniqueKeys(Keys(params))
              && (forall k :: HasKey(params, k) ==> k in QueryKeys)
              && Lookup(params, "$limit") == Some(JInt(limit))
              && Lookup(params, "$order") == Some(JString(":id"))
              && (HasKey(params, "$$app_token") <==> Given(appToken))
              && (Given(appToken) ==> Lookup(params, "$$app_token") == Some(JString(appToken.value)))
              && (HasKey(params, "$where") <==> Given(whereClause))
              && (Given(whereClause) ==> Lookup(params, "$where") == Some(JString(whereClause.value)))
    {
      var params := QueryParams(limit, whereClause);
      var token := if Given(appToken) then [("$$app_token", JString(appToken.value))] else [];
      var clause := if Given(whereClause) then [("$where", JString(whereClause.value))] else [];
      assert params == [("$limit", JInt(limit)), ("$order", JString(":id"))] + token + clause;
      assert "$limit"[1] == 'l' && "$order"[1] == 'o' && "$$app_token"[1] == '$' && "$where"[1] == 'w';
      var ks := Keys(params);
      assert forall i :: 0 <= i < |params| ==> ks[i] in QueryKeys && |ks[i]| > 1;
      assert forall i, j :: 0 <= i < j < |params| ==> ks[i][1] != ks[j][1];
      LookupKeyAt(params, 0);
      LookupKeyAt(params, 1);
      if Given(appToken) {
        LookupKeyAt(params, 2);
      }
      if Given(whereClause) {
        LookupKeyAt(params, |params| - 1);
      }
    }

    /** A known key asks for `<base_url>/<dataset id>.json`. */
    lemma DatasetUrl(key: string, limit: int, whereClause: Option<string>)
      requires key in datasets
      ensures var req := DatasetRequest(key, limit, whereClause);
              && req.Some?
              && req.value.url[..|baseUrl|] == baseUrl
              && req.value.url[|baseUrl|..] == "/" + datasets[key] + ".json"
    {
      var url := DatasetRequest(key, limit, whereClause).value.url;
      assert url == baseUrl + ("/" + datasets[key] + ".json");
    }

    /** The request `fetch_dataset(key, limit, where)` issues; none for an
        unknown key. */
    function DatasetRequest(key: string, limit: int, whereClause: Option<string>): (req: Option<Request>)
      ensures req.None? <==> key !in datasets
      ensures req.Some? ==> req.value.timeout == 30 && req.value.params == QueryParams(limit, whereClause)
    {
      if key !in datasets then None
      else Some(Request(baseUrl + "/" + datasets[key] + ".json", QueryParams(limit, whereClause), 30))
    }

    /** `fetch_dataset(key, limit, where)` when the network would answer
        `response` (`None` for a `RequestException`). */
    function FetchDataset(key: string, limit: int, whereClause: Option<string>,
                          response: Option<seq<Object>>): (x: Exchange<seq<Object>>)
      ensures x.issued == DatasetRequest(key, limit, whereClause)
      ensures key !in datasets ==> x.result == None
      ensures key in datasets ==> x.result == response
    {
      Perform(DatasetRequest(key, limit, whereClause), response)
    }

    /** The CSV file a fetch method writes for `stem` at `timestamp`. */
    function CsvPath(stem: string, timestamp: string): string {
      Join(saveDir, stem + "_" + timestamp + ".csv")
    }

    /** The part both fetch methods share once the data is in: nothing for
        `None`, an empty list or an empty frame; otherwise the frame with
        cleaned labels, saved as `<stem>_<timestamp>.csv`. */
    function Collected(data: Option<seq<Object>>, stem: string, timestamp: string)
      : (out: (Option<Frame>, seq<Artifact>))
      ensures out.0.None? ==> out.1 == []
      ensures out.0.Some? ==> && data.Some? && 0 < out.0.value.rowCount == |data.value|
                              && out.1 == [Artifact(CsvPath(stem, timestamp), Csv(out.0.value))]
    {
      if data.None? || data.value == [] then (None, [])
      else
        var df := FromRecords(data.value);
        if IsEmpty(df) then (None, [])
        else
          var cleaned := Helpers.CleanFrame(df);
          (Some(cleaned), [Artifact(CsvPath(stem, timestamp), Csv(cleaned))])
    }

    /** Nothing is kept or written exactly when the data is `None` or every
        record is an empty object (which includes the empty list); a kept
        frame has one row per record, one cleaned label per column of the
        records, and is the content of the one file written. */
    lemma CollectedSpec(data: Option<seq<Object>>, stem: string, timestamp: string)
      ensures var (frame, files) := Collected(data, stem, timestamp);
              && (frame.None? <==> data.None? || forall i :: 0 <= i < |data.value| ==> data.value[i] == [])
              && (frame.None? ==> files == [])
              && (frame.Some? ==>
                    && files == [Artifact(CsvPath(stem, timestamp), Csv(frame.value))]
                    && frame.value.rowCount == |data.value|
                    && frame.value.columns == Helpers.CleanColumnNames(ColumnsOf(data.value)))
    {
      if data.Some? {
        FromRecordsEmpty(data.value);
      }
    }

    /** Every label of a kept frame is clean: no blank, hyphen or capital. */
    lemma CollectedClean(data: Option<seq<Object>>, stem: string, timestamp: string)
      requires Collected(data, stem, timestamp).0.Some?
      ensures var df := Collected(data, stem, timestamp).0.value;
              forall i :: 0 <= i < |df.columns| ==> Helpers.IsCleanLabel(df.columns[i])
    {
      Helpers.CleanColumnNamesSpec(ColumnsOf(data.value));
    }

    /** `fetch_terminal_otp()`: `http(i)` is the answer to the i-th request
        and `now` the clock reading behind the file name. */
    method FetchTerminalOtp(http: nat -> Option<seq<Object>>, now: DateTime)
      returns (r: Result<Option<Frame>, Fault>, requests: seq<Request>, writes: seq<Artifact>)
      requires now.Valid()
      ensures requests == Issued(FetchDataset("terminal_otp", 2000, None, http(0)))
      ensures var (frame, files) := Collected(FetchDataset("terminal_otp", 2000, None, http(0)).result,
                                              "terminal_otp", Helpers.TimestampNow(now));
              && writes == files
              && r == (if frame.Some? && OtpSummaryFault(frame.value).Some?
                       then Failure(OtpSummaryFault(frame.value).value) else Success(frame))
    {
      var data;
      data, requests := Helpers.RetriedFetch((i: nat) => FetchDataset("terminal_otp", 2000, None, http(i)));
      writes := [];
      if data.None? || data.value == [] {
        return Success(None), requests, writes;
      }
      var df := FromRecords(data.value);
      if IsEmpty(df) {
        return Success(None), requests, writes;
      }
      df := Helpers.CleanFrame(df);
      writes := writes + [Artifact(CsvPath("terminal_otp", Helpers.TimestampNow(now)), Csv(df))];
      if "line" in df.columns {
        if "otp" !in df.columns {
          return Failure(KeyError("otp")), requests, writes;
        }
      }
      r := Success(Some(df));
    }

    /** `fetch_platform_wait_times()`, likewise for the additional platform
        time dataset; it has no summary step. */
    method FetchPlatformWaitTimes(http: nat -> Option<seq<Object>>, now: DateTime)
      returns (r: Option<Frame>, requests: seq<Request>, writes: seq<Artifact>)
      requires now.Valid()
      ensures requests == Issued(FetchDataset("additional_platform_time", 2000, None, http(0)))
      ensures (r, writes) == Collected(FetchDataset("additional_platform_time", 2000, None, http(0)).result,
                                       "platform_times", Helpers.TimestampNow(now))
    {
      var data;
      data, requests := Helpers.RetriedFetch((i: nat) => FetchDataset("additional_platform_time", 2000, None, http(i)));
      writes := [];
      if data.None? || data.value == [] {
        return None, requests, writes;
      }
      var df := FromRecords(data.value);
      if IsEmpty(df) {
        return None, requests, writes;
      }
      df := Helpers.CleanFrame(df);
      writes := writes + [Artifact(CsvPath("platform_times", Helpers.TimestampNow(now)), Csv(df))];
      r := Some(df);
      assert data == FetchDataset("additional_platform_time", 2000, None, http(0)).result;
      assert Collected(data, "platform_times", Helpers.TimestampNow(now)).0 == r;
      assert Collected(data, "platform_times", Helpers.TimestampNow(now)).1 == writes;
    }

    /** The `results` dict of `fetch_all` from what the two fetches
        returned. */
    function ResultsOf(otp: Option<Frame>, wait: Option<Frame>): (results: Results)
      ensures |results| == (if otp.Some? then 1 else 0) + (if wait.Some? then 1 else 0)
    {
      (if otp.Some? then [("terminal_otp", otp.value)] else [])
      + (if wait.Some? then [("platform_times", wait.value)] else [])
    }

    /** Its names are among `terminal_otp` and `platform_times`, each there
        exactly when its fetch returned a frame, `terminal_otp` first, each
        with that frame. */
    lemma ResultsSpec(otp: Option<Frame>, wait: Option<Frame>)
      ensures var results := ResultsOf(otp, wait);
              && (forall i :: 0 <= i < |results| ==> results[i].0 in {"terminal_otp", "platform_times"})
              && ("terminal_otp" in Keys(results) <==> otp.Some?)
              && ("platform_times" in Keys(results) <==> wait.Some?)
              && (otp.Some? ==> results[0] == ("terminal_otp", otp.value))
              && (wait.Some? ==> results[|results| - 1] == ("platform_times", wait.value))
              && (results == [] <==> otp.None? && wait.None?)
    {
      var results := ResultsOf(otp, wait);
      assert "terminal_otp" != "platform_times" by { assert "terminal_otp"[0] != "platform_times"[0]; }
      if otp.Some? {
        assert Keys(results)[0] == "terminal_otp";
      }
      if wait.Some? {
        assert Keys(results)[|results| - 1] == "platform_times";
      }
    }

    /** The summary file of `fetch_all`: none for empty results, otherwise
        `fetch_summary_<timestamp>.json` holding the summary document. */
    function SummaryWrites(results: Results, timestamp: string, isoTime: string): (files: seq<Artifact>)
      ensures files == [] <==> results == []
      ensures |files| <= 1
      ensures files != [] ==> files[0].content == JsonText(SummaryDocument(results, isoTime))
    {
      if results == [] then []
      else [Artifact(Join(saveDir, "fetch_summary_" + timestamp + ".json"),
                     JsonText(SummaryDocument(results, isoTime)))]
    }

    /** `fetch_all()`: the clock is read for each of the two CSV names, the
        summary file name and the summary's `timestamp`. A `KeyError` from
        the on-time summary propagates before the second fetch. */
    method FetchAll(otpHttp: nat -> Option<seq<Object>>, waitHttp: nat -> Option<seq<Object>>,
                    otpNow: DateTime, waitNow: DateTime, summaryNow: DateTime, isoNow: DateTime)
      returns (r: Result<Results, Fault>, requests: seq<Request>, writes: seq<Artifact>)
      requires otpNow.Valid() && waitNow.Valid() && summaryNow.Valid() && isoNow.Valid()
      ensures var (otp, otpFiles) := Collected(FetchDataset("terminal_otp", 2000, None, otpHttp(0)).result,
                                               "terminal_otp", Helpers.TimestampNow(otpNow));
              var (wait, waitFiles) := Collected(FetchDataset("additional_platform_time", 2000, None, waitHttp(0)).result,
                                                 "platform_times", Helpers.TimestampNow(waitNow));
              var otpRequests := Issued(FetchDataset("terminal_otp", 2000, None, otpHttp(0)));
              if otp.Some? && OtpSummaryFault(otp.value).Some? then
                && r == Failure(OtpSummaryFault(otp.value).value)
                && requests == otpRequests
                && writes == otpFiles
              else
                && r == Success(ResultsOf(otp, wait))
                && requests == otpRequests + Issued(FetchDataset("additional_platform_time", 2000, None, waitHttp(0)))
                && writes == otpFiles + waitFiles
                             + SummaryWrites(ResultsOf(otp, wait), Helpers.TimestampNow(summaryNow), IsoFormat(isoNow))
    {
      var results: Results := [];
      var otp, otpRequests, otpWrites := FetchTerminalOtp(otpHttp, otpNow);
      requests, writes := otpRequests, otpWrites;
      if otp.Failure? {
        return Failure(otp.error), requests, writes;
      }
      if otp.value.Some? {
        results := results + [("terminal_otp", otp.value.value)];
      }
      var wait, waitRequests, waitWrites := FetchPlatformWaitTimes(waitHttp, waitNow);
      requests, writes := requests + waitRequests, writes + waitWrites;
      if wait.Some? {
        results := results + [("platform_times", wait.value)];
      }
      assert results == ResultsOf(otp.value, wait);
      if results != [] {
        var summaryPath := Join(saveDir, "fetch_summary_" + Helpers.TimestampNow(summaryNow) + ".json");
        var summary := JObject([("timestamp", JString(IsoFormat(isoNow))),
                                ("datasets_fetched", JArray(StringArray(Keys(results)))),
                                ("record_counts", JObject(RecordCounts(results)))]);
        writes := writes + [Artifact(summaryPath, JsonText(summary))];
      }
      r := Success(results);
    }
  }

  /** The summary lists the fetched names in insertion order and the row
      count of each frame under its name. */
  lemma SummarySpec(results: Results, isoTime: string)
    requires UniqueKeys(Keys(results))
    ensures var doc := SummaryDocument(results, isoTime);
            && Keys(doc.members) == ["timestamp", "datasets_fetched", "record_counts"]
            && doc.members[0].1 == JString(isoTime)
            && doc.members[1].1.items == StringArray(Keys(results))
            && forall i :: 0 <= i < |results| ==>
                 Lookup(doc.members[2].1.members, results[i].0) == Some(JInt(Len(results[i].1)))
  {
    var counts := RecordCounts(results);
    forall i | 0 <= i < |results|
      ensures Lookup(counts, results[i].0) == Some(JInt(Len(results[i].1)))
    {
      LookupKeyAt(counts, i);
    }
  }

  /** The names in any `fetch_all` result are distinct, so the summary's
      counts are found under them. */
  lemma ResultsNamesUnique(fetcher: MtaFetcher, otp: Option<Frame>, wait: Option<Frame>)
    ensures UniqueKeys(Keys(fetcher.ResultsOf(otp, wait)))
  {
    var results := fetcher.ResultsOf(otp, wait);
    assert "terminal_otp"[0] != "platform_times"[0];
    if |results| == 2 {
      assert Keys(results)[0] == "terminal_otp" && Keys(results)[1] == "platform_times";
    }
  }

  /** An unknown dataset key issues no request and yields `None`. */
  lemma UnknownDataset(fetcher: MtaFetcher, key: string, limit: int, whereClause: Option<string>,
                       response: Option<seq<Object>>)
    requires fetcher.datasets == Datasets
    ensures key !in {"terminal_otp", "mean_distance_failures", "additional_platform_time"} <==>
              fetcher.FetchDataset(key, limit, whereClause, response) == Exchange(None, None)
  {
  }
}
