/** The serverless save endpoint (`api/chat/save.ts`): one handler from the
    request method, the body the platform hands it and the database's answer
    to a response and at most one write, and the connection URL it opens the
    database with. */
module SaveApi {
  import opened Wrappers
  import opened Text
  import opened Http
  import DevServer

  /** The CORS headers set before any branch is taken. */
  const CorsHeaders := [
    ("Access-Control-Allow-Credentials", "true"),
    ("Access-Control-Allow-Origin", "*"),
    ("Access-Control-Allow-Methods", "GET,OPTIONS,POST,PUT"),
    ("Access-Control-Allow-Headers",
     "X-CSRF-Token, X-Requested-With, Accept, Accept-Version, Content-Length, Content-MD5, Content-Type, Date, X-Api-Version")]

  /** `const { ... } = req.body`: the fields of a parsed body that is not
      `null`. Destructuring throws for a body the platform could not parse,
      for no body (`null` or `undefined`) and for a `null` one. */
  function Fields(body: Body): (f: Option<SaveFields>)
    ensures f.None? <==> body.NoBody? || body.Malformed? || body == Parsed(JNull)
    ensures f.Some? ==> f == Destructure(Some(body.value))
  {
    match body
    case Parsed(v) => Destructure(Some(v))
    case _ => None
  }

  /** A response and the write made for it, if any. */
  datatype Reply = Reply(response: Response, write: Option<StoreOp>)

  /** `handler(req, res)`. Every response carries the CORS headers. OPTIONS is
      answered with an empty 200 and every other method but POST with 405,
      neither touching the database. A body that cannot be destructured is a
      500, one missing a required field a 400, and only a complete POST
      writes: an update of the row named by a truthy `id`, a create
      otherwise, answered with 200 and the row's id, or with 500 when the
      write throws. A 500 never exposes the error. */
  function Handler(verb: string, body: Body, store: StoreOp -> StoreResult): (r: Reply)
    ensures r.response.headers == CorsHeaders
    ensures verb == "OPTIONS" ==> r == Reply(Response(200, CorsHeaders, Empty), None)
    ensures verb != "OPTIONS" && verb != "POST" ==>
      r == Reply(Response(405, CorsHeaders, ErrorBody(MethodNotAllowed)), None)
    ensures r.response.status == 400 <==>
      verb == "POST" && Fields(body).Some? && !HasRequired(Fields(body).value)
    ensures r.write.Some? <==>
      verb == "POST" && Fields(body).Some? && HasRequired(Fields(body).value)
    ensures r.write.Some? ==>
      && r.write.value == SaveOp(Fields(body).value)
      && (r.response.status == 200 <==> store(r.write.value).Stored?)
      && (store(r.write.value).Stored? ==> r.response.payload == SavedId(store(r.write.value).id))
    ensures r.response.status == 500 <==>
      verb == "POST" && (Fields(body).None? || (r.write.Some? && store(r.write.value).StoreFailed?))
    ensures r.response.status == 500 ==> r.response.payload == ErrorBody(InternalError)
  {
    if verb == "OPTIONS" then Reply(Response(200, CorsHeaders, Empty), None)
    else if verb != "POST" then Reply(Response(405, CorsHeaders, ErrorBody(MethodNotAllowed)), None)
    else match Fields(body)
      case None => Reply(Response(500, CorsHeaders, ErrorBody(InternalError)), None)
      case Some(f) =>
        if !HasRequired(f) then Reply(Response(400, CorsHeaders, ErrorBody(MissingFields)), None)
        else
          var op := SaveOp(f);
          match store(op)
          case Stored(id) => Reply(Response(200, CorsHeaders, SavedId(id)), Some(op))
          case StoreFailed(_) => Reply(Response(500, CorsHeaders, ErrorBody(InternalError)), Some(op))
  }

  /** For a request with a parsed body that is not `null`, the endpoint and
      the development server's save route make the same write and answer with
      the same status; they differ only in headers and in the error details
      a 500 carries. */
  lemma AgreesWithDevServer(verb: string, v: Json, db: DevServer.Db)
    requires v != JNull
    ensures var r := Handler(verb, Parsed(v), db.store);
      var o := DevServer.HandleSave(verb, Parsed(v), db);
      && o.Handled?
      && r.response.status == o.response.status
      && (r.write.Some? <==> o.call.Some?)
      && (r.write.Some? ==> o.call.value == DevServer.Save(r.write.value))
  {
  }

  /** Without a body the two servers part ways: the development server reads
      it as `{}` and refuses it with 400, while the endpoint fails to
      destructure it and answers 500. Neither writes. */
  lemma NoBodyDiverges(db: DevServer.Db)
    ensures Handler("POST", NoBody, db.store).response.status == 500
    ensures DevServer.HandleSave("POST", NoBody, db).response.status == 400
    ensures Handler("POST", NoBody, db.store).write.None? && DevServer.HandleSave("POST", NoBody, db).call.None?
  {
    DevServer.EmptyBodyMissingFields(db);
  }

  /** The connection URL as the endpoint builds it: the configured URL, then
      always `?`, then the pooling parameters. */
  function ConnectionUrlAsWritten(url: string): (r: string)
    ensures |r| == |url| + 1 + |DevServer.PoolParams| && r[..|url|] == url && r[|url| + 1..] == DevServer.PoolParams
    ensures r[|url|] == '?'
  {
    url + "?" + DevServer.PoolParams
  }

  /** A configured URL that already has a query string gets a second `?`, so
      `pgbouncer=true` ends up inside the last value of the original query
      instead of being a parameter of its own (`connection_limit=1`, after
      the `&`, still is one). The development
      server's `DevServer.PooledUrl` joins them with `&` instead
      (`DevServer.PooledUrlQueryCount`). */
  lemma {:induction false} ConnectionUrlDoubleQuery(url: string)
    requires '?' in url
    ensures Count(ConnectionUrlAsWritten(url), '?') == Count(url, '?') + 1 >= 2
    ensures Count(DevServer.PooledUrl(url), '?') == Count(url, '?')
  {
    DevServer.PoolParamsHasNoQuery();
    DevServer.CountJoined(url, '?', DevServer.PoolParams, '?');
    DevServer.PooledUrlQueryCount(url);
  }
}
