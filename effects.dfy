/** The program's effects on the outside world, as values: the HTTP requests
    it issues and the files it writes. */
module Effects {
  import opened Wrappers
  import opened Json
  import opened Frames

  /** `requests.get(url, params=params, timeout=timeout)`. */
  datatype Request = Request(url: string, params: Object, timeout: int)

  /** One fetch: the request issued, if any, and what came back. `result` is
      `None` when no request was issued or the transport raised
      `RequestException` (the fetchers catch it and return `None`). */
  datatype Exchange<+T> = Exchange(issued: Option<Request>, result: Option<T>)

  /** Issuing `req` (if there is one) when the network would answer
      `response`. */
  function Perform<T>(req: Option<Request>, response: Option<T>): (x: Exchange<T>)
    ensures x.issued == req
    ensures req.None? ==> x.result == None
    ensures req.Some? ==> x.result == response
  {
    if req.None? then Exchange(None, None) else Exchange(req, response)
  }

  function Issued<T>(x: Exchange<T>): seq<Request> {
    if x.issued.Some? then [x.issued.value] else []
  }

  /** The requests issued by the first `calls` fetches of a series. */
  function RequestsMade<T>(fetch: nat -> Exchange<T>, calls: nat): seq<Request> {
    if calls == 0 then [] else RequestsMade(fetch, calls - 1) + Issued(fetch(calls - 1))
  }

  datatype Content =
    | JsonText(doc: Json)     // `json.dump(doc, f, indent=2)`
    | Csv(table: Frame)       // `df.to_csv(path, index=False)`
    | Pickle(table: Frame)    // `df.to_pickle(path)`

  /** One file written. */
  datatype Artifact = Artifact(path: string, content: Content)

  /** `Path(dir) / name`. */
  function Join(dir: string, name: string): string {
    dir + "/" + name
  }
}
