/** The development server's API middleware (`vite.config.ts`): the pooled
    connection URL, the cleaning of the configured database URL, and the
    dispatch of a request by URL, method and body to a response and at most
    one database call. The database is an oracle (`Db`). */
module DevServer {
  import opened Wrappers
  import opened Text
  import opened Http

  /** The pooling parameters added to every connection URL. */
  const PoolParams := "pgbouncer=true&connection_limit=1"

  lemma PoolParamsHasNoQuery()
    ensures '?' !in PoolParams
  {
  }

  /** Occurrences of `c` in two pieces joined by a separator, the second
      free of `c`. */
  lemma CountJoined(a: string, sep: char, b: string, c: char)
    requires c !in b
    ensures Count(a + [sep] + b, c) == Count(a, c) + (if sep == c then 1 else 0)
  {
    CountAppend(a + [sep], b, c);
    CountAppend(a, [sep], c);
  }

  /** `getPrisma`'s connection URL: the configured URL kept as it is, then
      `&` when it already has a query string and `?` otherwise, then the
      pooling parameters. */
  function PooledUrl(url: string): (r: string)
    ensures |r| == |url| + 1 + |PoolParams| && r[..|url|] == url && r[|url| + 1..] == PoolParams
    ensures r[|url|] == (if '?' in url then '&' else '?')
  {
    url + [if '?' in url then '&' else '?'] + PoolParams
  }

  /** The pooled URL has exactly one `?` when the configured URL had none,
      and otherwise no more than it had: the parameters never open a second
      query string. */
  lemma {:induction false} PooledUrlQueryCount(url: string)
    ensures Count(PooledUrl(url), '?') == (if '?' in url then Count(url, '?') else 1)
  {
    PoolParamsHasNoQuery();
    var sep := if '?' in url then '&' else '?';
    CountJoined(url, sep, PoolParams, '?');
  }

  /** `getDatabaseUrl`'s cleaning of the captured value: trimmed, every
      literal backslash-n pair removed, every newline removed, trimmed
      again. The result holds no newline and has no whitespace at either
      end; every character other than whitespace, backslash and `n` is kept
      as often as it occurs, and a value that is already clean is returned
      as it is. */
  function CleanDatabaseUrl(raw: string): (url: string)
    ensures '\n' !in url
    ensures url == [] || (!IsWhitespace(url[0]) && !IsWhitespace(url[|url| - 1]))
    ensures forall c :: !IsWhitespace(c) && c != '\\' && c != 'n' ==> Count(url, c) == Count(raw, c)
    ensures Trim(raw) == raw && '\n' !in raw && '\\' !in raw ==> url == raw
  {
    var t := Trim(raw);
    var p := RemovePair(t, '\\', 'n');
    var s := RemoveChar(p, '\n');
    TrimKeepsOut(s, '\n');
    CleanKeepsCounts(raw, t, p, s);
    CleanLeavesCleanUrl(raw);
    Trim(s)
  }

  /** Neither removal touches a value without backslashes and newlines. */
  lemma CleanLeavesCleanUrl(raw: string)
    ensures '\n' !in raw && '\\' !in raw ==> RemoveChar(RemovePair(raw, '\\', 'n'), '\n') == raw
  {
    if '\n' !in raw && '\\' !in raw {
      RemovePairAbsent(raw, '\\', 'n');
      RemoveCharAbsent(raw, '\n');
    }
  }

  /** Each cleaning step keeps every character other than whitespace,
      backslash and `n`. */
  lemma CleanKeepsCounts(raw: string, t: string, p: string, s: string)
    requires t == Trim(raw) && p == RemovePair(t, '\\', 'n') && s == RemoveChar(p, '\n')
    ensures forall c :: !IsWhitespace(c) && c != '\\' && c != 'n' ==> Count(Trim(s), c) == Count(raw, c)
  {
    forall c | !IsWhitespace(c) && c != '\\' && c != 'n'
      ensures Count(Trim(s), c) == Count(raw, c)
    {
      TrimKeepsCount(raw, c);
      TrimKeepsCount(s, c);
    }
  }

  const SavePath := "/api/chat/save"
  const ChatPrefix := "/api/chat/"

  /** `url === '/api/chat/save' || url.startsWith('/api/chat/save?')` */
  predicate IsSaveUrl(url: string) {
    url == SavePath || StartsWith(url, SavePath + "?")
  }

  /** A character of the `[^/?]` class. */
  predicate IdChar(c: char) {
    c != '/' && c != '?'
  }

  /** The length of the longest prefix of `s` made of `IdChar`s. */
  function IdRun(s: string): (n: nat)
    ensures n <= |s|
    ensures forall k :: 0 <= k < n ==> IdChar(s[k])
    ensures n < |s| ==> !IdChar(s[n])
  {
    if |s| == 0 || !IdChar(s[0]) then 0 else 1 + IdRun(s[1..])
  }

  /** `url.match(/^\/api\/chat\/([^/?]+)/)`: the id is the longest non-empty
      run of characters other than `/` and `?` right after `/api/chat/`;
      there is a match exactly when such a run starts there. */
  function ChatId(url: string): (id: Option<string>)
    ensures id.Some? ==>
      && |id.value| > 0 && StartsWith(url, ChatPrefix + id.value)
      && (forall k :: 0 <= k < |id.value| ==> IdChar(id.value[k]))
      && (|url| == |ChatPrefix| + |id.value| || !IdChar(url[|ChatPrefix| + |id.value|]))
    ensures id.None? <==> !StartsWith(url, ChatPrefix) || |url| == |ChatPrefix| || !IdChar(url[|ChatPrefix|])
  {
    if StartsWith(url, ChatPrefix) then
      var n := IdRun(url[|ChatPrefix|..]);
      if n == 0 then None
      else
        var id := url[|ChatPrefix|..|ChatPrefix| + n];
        assert (ChatPrefix + id) == url[..|ChatPrefix| + n];
        Some(id)
    else None
  }

  /** Where the middleware sends a request. */
  datatype Route = SaveRoute | ChatRoute(id: string) | PassOn

  /** No URL, or a URL matching neither route, is passed on; the save route
      is tried before the id route, and the id route carries the id the
      pattern matches: the maximal run after the prefix. */
  function RouteOf(url: Option<string>): (r: Route)
    ensures r == SaveRoute <==> url.Some? && IsSaveUrl(url.value)
    ensures r.ChatRoute? ==> url.Some? && ChatId(url.value) == Some(r.id)
    ensures r.ChatRoute? ==>
      && url.Some? && !IsSaveUrl(url.value) && |r.id| > 0 && StartsWith(url.value, ChatPrefix + r.id)
      && (forall k :: 0 <= k < |r.id| ==> IdChar(r.id[k]))
    ensures r.PassOn? <==> url.None? || (!IsSaveUrl(url.value) && ChatId(url.value).None?)
  {
    if url.None? then PassOn
    else if IsSaveUrl(url.value) then SaveRoute
    else match ChatId(url.value)
      case Some(id) => ChatRoute(id)
      case None => PassOn
  }

  /** A row lookup: the stored row, no row, or a thrown error. */
  datatype LookupResult = Found(data: SessionData) | NotFound | LookupFailed(message: string)

  /** The database as the middleware sees it: a write and a lookup by id. */
  datatype Db = Db(store: StoreOp -> StoreResult, lookup: string -> LookupResult)

  /** The one database call a request makes, if any. */
  datatype DbCall = Save(op: StoreOp) | Find(id: string)

  /** `next()`, or a response and the database call made for it. */
  datatype Outcome = PassedOn | Handled(response: Response, call: Option<DbCall>)

  const JsonHeaders := [("Content-Type", "application/json")]

  /** The `details` of the error thrown by destructuring a `null` body; its
      wording is the JavaScript engine's. */
  const NullBodyMessage := "Cannot destructure the request body: it is null"

  /** `parseJsonBody` followed by the destructuring: an empty body reads as
      `{}`; a body that does not parse fails with the parser's message, and a
      `null` body with the destructuring error. */
  function ReadFields(body: Body): (f: Result<SaveFields, string>)
    ensures body.NoBody? ==> f.Success? && !HasRequired(f.value) && !Truthy(f.value.id)
    ensures body.Malformed? ==> f == Failure(body.message)
    ensures body.Parsed? ==> (f.Failure? <==> body.value.JNull?)
  {
    match body
    case NoBody => Success(Destructure(Some(JObj(map[]))).value)
    case Malformed(m) => Failure(m)
    case Parsed(v) =>
      match Destructure(Some(v))
      case Some(fields) => Success(fields)
      case None => Failure(NullBodyMessage)
  }

  /** The `/api/chat/save` branch. OPTIONS is answered with an empty 200,
      every other method but POST with 405; a POST that cannot be read is a
      500 with the error's message, one missing a required field a 400, and
      only a complete POST writes: an update when `id` is truthy, a create
      otherwise, answered with 200 and the row's id or with 500 and the
      thrown message. */
  function HandleSave(verb: string, body: Body, db: Db): (o: Outcome)
    ensures o.Handled?
    ensures verb == "OPTIONS" ==> o == Handled(Response(200, [], Empty), None)
    ensures verb != "OPTIONS" && verb != "POST" ==>
      o == Handled(Response(405, JsonHeaders, ErrorBody(MethodNotAllowed)), None)
    ensures verb == "POST" && ReadFields(body).Failure? ==>
      o == Handled(Response(500, JsonHeaders, ErrorDetails(InternalError, ReadFields(body).error)), None)
    ensures o.response.status == 400 <==>
      verb == "POST" && ReadFields(body).Success? && !HasRequired(ReadFields(body).value)
    ensures o.call.Some? <==>
      verb == "POST" && ReadFields(body).Success? && HasRequired(ReadFields(body).value)
    ensures o.call.Some? ==>
      var op := SaveOp(ReadFields(body).value);
      && o.call.value == Save(op)
      && (o.response.status == 200 <==> db.store(op).Stored?)
      && (db.store(op).Stored? ==> o.response.payload == SavedId(db.store(op).id))
      && (db.store(op).StoreFailed? ==>
            o.response == Response(500, JsonHeaders, ErrorDetails(InternalError, db.store(op).message)))
  {
    if verb == "OPTIONS" then Handled(Response(200, [], Empty), None)
    else if verb != "POST" then Handled(Response(405, JsonHeaders, ErrorBody(MethodNotAllowed)), None)
    else match ReadFields(body)
      case Failure(e) => Handled(Response(500, JsonHeaders, ErrorDetails(InternalError, e)), None)
      case Success(f) =>
        if !HasRequired(f) then Handled(Response(400, JsonHeaders, ErrorBody(MissingFields)), None)
        else
          var op := SaveOp(f);
          match db.store(op)
          case Stored(id) => Handled(Response(200, JsonHeaders, SavedId(id)), Some(Save(op)))
          case StoreFailed(m) => Handled(Response(500, JsonHeaders, ErrorDetails(InternalError, m)), Some(Save(op)))
  }

  /** The `/api/chat/:id` branch. OPTIONS is answered with an empty 200,
      every other verb but GET with 405; a GET looks the id up and answers
      200 with exactly the four stored fields, 404 when there is no row, or
      500 with the thrown message. */
  function HandleLookup(id: string, verb: string, db: Db): (o: Outcome)
    ensures o.Handled?
    ensures verb == "OPTIONS" ==> o == Handled(Response(200, [], Empty), None)
    ensures verb != "OPTIONS" && verb != "GET" ==>
      o == Handled(Response(405, JsonHeaders, ErrorBody(MethodNotAllowed)), None)
    ensures o.call.Some? <==> verb == "GET"
    ensures verb == "GET" ==>
      && o.call == Some(Find(id))
      && (o.response.status == 200 <==> db.lookup(id).Found?)
      && (o.response.status == 404 <==> db.lookup(id).NotFound?)
      && (o.response.status == 500 <==> db.lookup(id).LookupFailed?)
      && (db.lookup(id).Found? ==> o.response.payload == SessionBody(db.lookup(id).data))
      && (db.lookup(id).NotFound? ==> o.response.payload == ErrorBody(SessionNotFound))
      && (db.lookup(id).LookupFailed? ==> o.response.payload == ErrorDetails(InternalError, db.lookup(id).message))
  {
    if verb == "OPTIONS" then Handled(Response(200, [], Empty), None)
    else if verb != "GET" then Handled(Response(405, JsonHeaders, ErrorBody(MethodNotAllowed)), None)
    else match db.lookup(id)
      case Found(data) => Handled(Response(200, JsonHeaders, SessionBody(data)), Some(Find(id)))
      case NotFound => Handled(Response(404, JsonHeaders, ErrorBody(SessionNotFound)), Some(Find(id)))
      case LookupFailed(m) => Handled(Response(500, JsonHeaders, ErrorDetails(InternalError, m)), Some(Find(id)))
  }

  /** The middleware. A request is passed on untouched exactly when its route
      is neither; a request on the save route is answered as `HandleSave`
      answers it and one on the id route as `HandleLookup` answers it for
      that route's id. So a write happens only for a POST on the save route,
      and a lookup only for a GET on the id route, of that route's id. */
  function Handle(url: Option<string>, verb: string, body: Body, db: Db): (o: Outcome)
    ensures o.PassedOn? <==> RouteOf(url).PassOn?
    ensures RouteOf(url).SaveRoute? ==> o == HandleSave(verb, body, db)
    ensures RouteOf(url).ChatRoute? ==> o == HandleLookup(RouteOf(url).id, verb, db)
    ensures o.Handled? && o.call.Some? && o.call.value.Save? ==> RouteOf(url).SaveRoute? && verb == "POST"
    ensures o.Handled? && o.call.Some? && o.call.value.Find? ==> RouteOf(url) == ChatRoute(o.call.value.id) && verb == "GET"
  {
    match RouteOf(url)
    case PassOn => PassedOn
    case SaveRoute => HandleSave(verb, body, db)
    case ChatRoute(id) => HandleLookup(id, verb, db)
  }

  /** `GET /api/chat/save` is refused with 405 and never looked up as an id. */
  lemma GetSaveRefused(body: Body, db: Db)
    ensures Handle(Some(SavePath), "GET", body, db) == Handled(Response(405, JsonHeaders, ErrorBody(MethodNotAllowed)), None)
  {
  }

  /** A save URL with a query string is still the save route. */
  lemma SaveQueryIsSaveRoute(query: string)
    ensures RouteOf(Some(SavePath + "?" + query)) == SaveRoute
  {
    assert (SavePath + "?" + query)[..|SavePath + "?"|] == SavePath + "?";
  }

  /** `/api/chat/save/` is not the save route: it is the id route with the id
      `save`, so a POST there is refused with 405. */
  lemma SaveSlashIsIdRoute(body: Body, db: Db)
    ensures RouteOf(Some(SavePath + "/")) == ChatRoute("save")
    ensures Handle(Some(SavePath + "/"), "POST", body, db).response.status == 405
  {
    var url := SavePath + "/";
    assert !StartsWith(url, SavePath + "?") by {
      assert url[14] == '/';
      assert (SavePath + "?")[14] == '?';
    }
    assert url[..|ChatPrefix|] == ChatPrefix;
    var rest := url[|ChatPrefix|..];
    assert rest == "save/";
    assert IdRun(rest) == 4 by {
      assert IdRun(rest[4..]) == 0;
      assert rest[3..][1..] == rest[4..];
      assert rest[2..][1..] == rest[3..];
      assert rest[1..][1..] == rest[2..];
    }
  }

  /** An id URL yields its id up to the first `/` or `?` after the prefix,
      whatever follows. */
  lemma ChatIdStopsAtSeparator(id: string, sep: char, tail: string)
    requires |id| > 0 && (forall k :: 0 <= k < |id| ==> IdChar(id[k])) && !IdChar(sep)
    ensures ChatId(ChatPrefix + id + [sep] + tail) == Some(id)
  {
    var url := ChatPrefix + id + [sep] + tail;
    assert url[..|ChatPrefix|] == ChatPrefix;
    assert url[|ChatPrefix|..] == id + ([sep] + tail);
    IdRunPrefix(id, [sep] + tail);
    assert url[|ChatPrefix|..|ChatPrefix| + |id|] == url[|ChatPrefix|..][..|id|] == id;
  }

  /** A GET on `/api/chat/<id>` followed by a separator looks `id` up and
      answers with what the lookup found; the one exception is
      `/api/chat/save?...`, which is the save route. */
  lemma IdUrlLooksUp(id: string, sep: char, tail: string, body: Body, db: Db)
    requires |id| > 0 && (forall k :: 0 <= k < |id| ==> IdChar(id[k])) && !IdChar(sep)
    requires !(id == "save" && sep == '?')
    ensures var o := Handle(Some(ChatPrefix + id + [sep] + tail), "GET", body, db);
      && o.call == Some(Find(id))
      && (o.response.status == 200 <==> db.lookup(id).Found?)
      && (o.response.status == 404 <==> db.lookup(id).NotFound?)
  {
    var url := ChatPrefix + id + [sep] + tail;
    ChatIdStopsAtSeparator(id, sep, tail);
    NotSaveUrl(id, sep, tail);
  }

  /** A GET on `/api/chat/<id>` with nothing after the id looks `id` up,
      unless the id is `save`, which makes the URL the save path. */
  lemma BareIdUrlLooksUp(id: string, body: Body, db: Db)
    requires |id| > 0 && (forall k :: 0 <= k < |id| ==> IdChar(id[k])) && id != "save"
    ensures Handle(Some(ChatPrefix + id), "GET", body, db).call == Some(Find(id))
  {
    var url := ChatPrefix + id;
    assert url[..|ChatPrefix|] == ChatPrefix && url[|ChatPrefix|..] == id;
    IdRunPrefix(id, []);
    assert id + [] == id;
    assert url[|ChatPrefix|..|ChatPrefix| + |id|] == id;
    assert '?' !in url[|ChatPrefix|..];
    assert url != SavePath by {
      if |url| == |SavePath| {
        assert url[|ChatPrefix|..] == id && SavePath[|ChatPrefix|..] == "save";
      }
    }
    assert !StartsWith(url, SavePath + "?") by {
      if |url| >= |SavePath| + 1 {
        assert url[14] == id[4];
        assert (SavePath + "?")[14] == '?';
      }
    }
  }

  /** The URL of `IdUrlLooksUp` differs from the save path, and from its
      `?`-prefix, at a position within the prefix, so it is not a save URL. */
  lemma NotSaveUrl(id: string, sep: char, tail: string)
    requires |id| > 0 && (forall k :: 0 <= k < |id| ==> IdChar(id[k])) && !IdChar(sep)
    requires !(id == "save" && sep == '?')
    ensures !IsSaveUrl(ChatPrefix + id + [sep] + tail)
  {
    var url := ChatPrefix + id + [sep] + tail;
    var sq := SavePath + "?";
    assert forall k :: 0 <= k < |id| ==> url[|ChatPrefix| + k] == id[k];
    assert url[|ChatPrefix| + |id|] == sep;
    var p: nat;
    if |id| < 4 {
      p := |ChatPrefix| + |id|;
    } else if id[..4] != "save" {
      var k :| 0 <= k < 4 && id[k] != "save"[k];
      p := |ChatPrefix| + k;
    } else {
      p := 14;
    }
    assert p < |url| && p < |sq| && url[p] != sq[p];
    assert url != SavePath by {
      if p < |SavePath| {
        assert SavePath[p] == sq[p];
      }
    }
  }

  /** The run of id characters is exactly `id` when a separator follows it. */
  lemma {:induction false} IdRunPrefix(id: string, rest: string)
    requires forall k :: 0 <= k < |id| ==> IdChar(id[k])
    requires rest == [] || !IdChar(rest[0])
    ensures IdRun(id + rest) == |id|
  {
    if |id| > 0 {
      assert (id + rest)[1..] == id[1..] + rest;
      IdRunPrefix(id[1..], rest);
    }
  }

  /** A POST without a body reads as `{}`: it misses every required field and
      is refused with 400 before any write. */
  lemma EmptyBodyMissingFields(db: Db)
    ensures HandleSave("POST", NoBody, db) == Handled(Response(400, JsonHeaders, ErrorBody(MissingFields)), None)
  {
  }

  /** Empty arrays are truthy: a save whose questions and messages are empty
      lists is accepted and written. */
  lemma EmptyArraysAccepted(topic: string, question: string, db: Db)
    requires topic != "" && question != ""
    ensures var body := Parsed(JObj(map["topic" := JStr(topic), "questions" := JArr([]),
                                        "selectedQuestion" := JStr(question), "messages" := JArr([])]));
      HandleSave("POST", body, db).call ==
        Some(Save(Create(SessionData(JStr(topic), JArr([]), JStr(question), JArr([])))))
  {
    var fields := map["topic" := JStr(topic), "questions" := JArr([]),
                      "selectedQuestion" := JStr(question), "messages" := JArr([])];
    assert "id" !in fields;
  }
}
