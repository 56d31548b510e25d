/**
 * The request mocker of explore/explore.go: it shapes the `{context, event}`
 * envelope that the NodeJS proxy tier would POST to a Lambda handler under
 * test, and, for API Gateway requests, files the whitelisted parameters
 * into header, query-string and path maps.
 *
 * The HTTP round trip is not modelled: each entry point returns the POST it
 * would send (verb, URL, content type and envelope). Wall-clock time and the
 * process ID are parameters.
 */
module Explore {
  import opened Wrappers
  import opened Segments
  import opened Decimal

  const MockRequestID := "12341234-1234-1234-1234-123412341234"

  // ---------------------------------------------------------------------
  // The envelope and the raw request
  // ---------------------------------------------------------------------

  /** A value of the envelope map: the two dynamic types stored under "context" and "event". */
  datatype EnvelopeEntry<C, E> = ContextEntry(context: C) | EventEntry(event: E)

  /** The POST that would be issued: target URL, headers of interest and body (before JSON encoding). */
  datatype MockPost<C, E> = MockPost(verb: string, url: string, contentType: string,
                                     body: map<string, EnvelopeEntry<C, E>>)

  /**
   * Reads an envelope back: the context and the optional event, or None
   * when the map is not an envelope (no context, a stray key, or a value of
   * the wrong kind).
   */
  function OpenEnvelope<C, E>(body: map<string, EnvelopeEntry<C, E>>): Option<(C, Option<E>)>
  {
    if body.Keys <= {"context", "event"} && "context" in body && body["context"].ContextEntry? then
      if "event" !in body then Some((body["context"].context, None))
      else if body["event"].EventEntry? then Some((body["context"].context, Some(body["event"].event)))
      else None
    else None
  }

  /**
   * NewRawRequest: the envelope always holds the context and holds "event"
   * exactly when event data is supplied; the target is `testingURL/lambdaName`.
   */
  method NewRawRequest<C, E>(lambdaName: string, context: C, eventData: Option<E>, testingURL: string)
    returns (post: MockPost<C, E>)
    ensures post.verb == "POST" && post.contentType == "application/json"
    ensures post.url == testingURL + "/" + lambdaName
    ensures "context" in post.body && post.body["context"] == ContextEntry(context)
    ensures "event" in post.body <==> eventData.Some?
    ensures eventData.Some? ==> post.body["event"] == EventEntry(eventData.value)
    ensures OpenEnvelope(post.body) == Some((context, eventData))
  {
    var requestBody: map<string, EnvelopeEntry<C, E>> := map["context" := ContextEntry(context)];
    if eventData.Some? {
      requestBody := requestBody["event" := EventEntry(eventData.value)];
    }
    var host := testingURL + "/" + lambdaName;
    post := MockPost("POST", host, "application/json", requestBody);
  }

  // ---------------------------------------------------------------------
  // NewLambdaRequest
  // ---------------------------------------------------------------------

  /** The instant read from the clock, in the units the context renders. */
  datatype Clock = Clock(unix: int, year: int, month: int, day: int)

  /** `InvokeID`: the Unix second, a dash, then the fixed request ID. */
  function InvokeId(unix: int): (id: string)
    ensures var d := IntToDecimal(unix);
      |id| > |d| && id[..|d|] == d && id[|d|..] == "-" + MockRequestID
  {
    var d, suffix := IntToDecimal(unix), "-" + MockRequestID;
    assert (d + suffix)[..|d|] == d && (d + suffix)[|d|..] == suffix;
    d + suffix
  }

  /** Two invocation IDs are equal only when built at the same Unix second. */
  lemma InvokeIdDeterminesSecond(a: int, b: int)
    requires InvokeId(a) == InvokeId(b)
    ensures a == b
  {
    var suffix := "-" + MockRequestID;
    var da, db := IntToDecimal(a), IntToDecimal(b);
    assert InvokeId(a) == da + suffix && InvokeId(b) == db + suffix;
    assert |da| == |db|;
    assert da == (da + suffix)[..|da|];
    assert db == (db + suffix)[..|db|];
    IntToDecimalInjective(a, b);
  }

  /** `LogStreamName`: `year/month/day/[$LATEST]unix`, ending in the Unix second. */
  function LogStreamName(now: Clock): (name: string)
    ensures var date, u := LogStreamDate(now), IntToDecimal(now.unix);
      |name| == |date| + 10 + |u| && name[..|date|] == date && name[|date|..] == "/[$LATEST]" + u
  {
    var date, tail := LogStreamDate(now), "/[$LATEST]" + IntToDecimal(now.unix);
    assert (date + tail)[..|date|] == date && (date + tail)[|date|..] == tail;
    date + tail
  }

  /** The `year/month/day` head of the log stream name. */
  function LogStreamDate(now: Clock): string
  {
    IntToDecimal(now.year) + "/" + IntToDecimal(now.month) + "/" + IntToDecimal(now.day)
  }

  const FunctionArnPrefix := "arn:aws:lambda:us-west-2:123412341234:function:SpartaMockFunction-"

  /** `InvokedFunctionARN`: a fixed ARN prefix followed by the Unix second. */
  function FunctionArn(unix: int): (arn: string)
    ensures |arn| > |FunctionArnPrefix|
    ensures arn[..|FunctionArnPrefix|] == FunctionArnPrefix
    ensures arn[|FunctionArnPrefix|..] == IntToDecimal(unix)
  {
    FunctionArnPrefix + IntToDecimal(unix)
  }

  /** Two ARNs are equal only when built at the same Unix second. */
  lemma FunctionArnDeterminesSecond(a: int, b: int)
    requires FunctionArn(a) == FunctionArn(b)
    ensures a == b
  {
    assert IntToDecimal(a) == FunctionArn(a)[|FunctionArnPrefix|..];
    IntToDecimalInjective(a, b);
  }

  /** The synthetic Lambda context: eight keys, five fixed and three derived from the clock. */
  function LambdaContext(now: Clock): (ctx: map<string, string>)
    ensures ctx.Keys == {"AWSRequestID", "InvokeID", "LogGroupName", "LogStreamName",
                         "FunctionName", "MemoryLimitInMB", "FunctionVersion", "InvokedFunctionARN"}
    ensures ctx["AWSRequestID"] == MockRequestID
    ensures ctx["InvokeID"] == InvokeId(now.unix)
    ensures ctx["LogGroupName"] == "/aws/lambda/SpartaApplicationMockLogGroup-9ZX7FITHEAG8"
    ensures ctx["LogStreamName"] == LogStreamName(now)
    ensures ctx["FunctionName"] == "SpartaFunction" && ctx["MemoryLimitInMB"] == "128"
    ensures ctx["FunctionVersion"] == "[LATEST]"
    ensures ctx["InvokedFunctionARN"] == FunctionArn(now.unix)
  {
    map[
      "AWSRequestID" := MockRequestID,
      "InvokeID" := InvokeId(now.unix),
      "LogGroupName" := "/aws/lambda/SpartaApplicationMockLogGroup-9ZX7FITHEAG8",
      "LogStreamName" := LogStreamName(now),
      "FunctionName" := "SpartaFunction",
      "MemoryLimitInMB" := "128",
      "FunctionVersion" := "[LATEST]",
      "InvokedFunctionARN" := FunctionArn(now.unix)
    ]
  }

  /** NewLambdaRequest: the raw request carrying the synthetic context built at `now`. */
  method NewLambdaRequest<E>(lambdaName: string, eventData: Option<E>, testingURL: string, now: Clock)
    returns (post: MockPost<map<string, string>, E>)
    ensures post.verb == "POST" && post.contentType == "application/json"
    ensures post.url == testingURL + "/" + lambdaName
    ensures OpenEnvelope(post.body) == Some((LambdaContext(now), eventData))
  {
    var context := LambdaContext(now);
    post := NewRawRequest(lambdaName, context, eventData, testingURL);
  }

  // ---------------------------------------------------------------------
  // NewAPIGatewayRequest
  // ---------------------------------------------------------------------

  datatype Identity = Identity(
    accountId: string, apiKey: string, caller: string,
    cognitoAuthenticationProvider: string, cognitoAuthenticationType: string,
    cognitoIdentityId: string, cognitoIdentityPoolId: string,
    sourceIp: string, user: string, userAgent: string, userArn: string)

  datatype GatewayContext = GatewayContext(
    appId: string, httpMethod: string, requestId: string, resourceId: string,
    resourcePath: string, stage: string, identity: Identity)

  datatype GatewayRequest<E> = GatewayRequest(
    httpMethod: string, data: Option<E>,
    headers: map<string, string>, queryParams: map<string, string>, pathParams: map<string, string>,
    context: GatewayContext)

  /** Go's zero value of the context struct: every string empty. */
  const ZeroIdentity := Identity("", "", "", "", "", "", "", "", "", "", "")
  const ZeroContext := GatewayContext("", "", "", "", "", "", ZeroIdentity)

  /** The error NewAPIGatewayRequest returns for a key outside the three categories. */
  datatype WhitelistError = UnsupportedWhitelistParam(key: string) {
    function Message(): (msg: string)
      ensures |msg| > |key| && msg[|msg| - |key|..] == key
    {
      "Unsupported whitelist param value: " + key
    }
  }

  datatype ParamKind = Header | QueryString | Path

  /**
   * The third dot-separated segment as the source reads it, `parts[2]`: it is
   * defined only for keys with at least three segments (Go panics otherwise).
   */
  function ThirdSegmentAsWritten(key: string): (segment: string)
    requires |Split(key, '.')| >= 3
    ensures '.' !in segment
  {
    Split(key, '.')[2]
  }

  /** A two-segment key is outside the domain of `parts[2]`: the source crashes on it. */
  lemma AsWrittenCrashesOnShortKey()
    ensures |Split("method.request", '.')| == 2
  {
  }

  /** The category of a key: its third segment, or None when the key has fewer than three. */
  function Category(key: string): (cat: Option<string>)
    ensures cat.Some? <==> Occurrences(key, '.') >= 2
    ensures cat.Some? ==> cat.value == ThirdSegmentAsWritten(key)
  {
    var parts := Split(key, '.');
    if |parts| < 3 then None else Some(parts[2])
  }

  /** The three categories the source accepts, each to its own map; any other is rejected. */
  function KindOf(category: string): (kind: Option<ParamKind>)
    ensures kind.Some? <==> category in {"header", "querystring", "path"}
    ensures kind == Some(Header) <==> category == "header"
    ensures kind == Some(QueryString) <==> category == "querystring"
    ensures kind == Some(Path) <==> category == "path"
  {
    if category == "header" then Some(Header)
    else if category == "querystring" then Some(QueryString)
    else if category == "path" then Some(Path)
    else None
  }

  /** Where a whitelist key is filed; None means the key is rejected. */
  function Classify(key: string): Option<ParamKind>
  {
    match Category(key)
    case None => None
    case Some(cat) => KindOf(cat)
  }

  /**
   * A key is filed exactly when its third segment exists and is one of the
   * three categories, and then under the kind that segment names.
   */
  lemma ClassifyCases(key: string)
    ensures Classify(key).Some? <==> Category(key).Some? && Category(key).value in {"header", "querystring", "path"}
    ensures Classify(key) == Some(Header) <==> Category(key) == Some("header")
    ensures Classify(key) == Some(QueryString) <==> Category(key) == Some("querystring")
    ensures Classify(key) == Some(Path) <==> Category(key) == Some("path")
  {
    if Category(key).Some? {
      var cat := Category(key).value;
      assert Classify(key) == KindOf(cat);
    }
  }

  /** A key `a.b.cat.name` with dot-free `a`, `b`, `cat` has category `cat`, whatever `name` holds. */
  lemma WhitelistKeyCategory(a: string, b: string, cat: string, name: string)
    requires '.' !in a && '.' !in b && '.' !in cat
    ensures Category(a + "." + b + "." + cat + "." + name) == Some(cat)
  {
    var key := a + "." + b + "." + cat + "." + name;
    var rest2 := cat + "." + name;
    var rest1 := b + "." + rest2;
    assert key == a + ['.'] + rest1;
    assert rest1 == b + ['.'] + rest2;
    assert rest2 == cat + ['.'] + name;
    SplitPrefix(a, '.', rest1);
    SplitPrefix(b, '.', rest2);
    SplitPrefix(cat, '.', name);
    assert Split(key, '.') == [a] + ([b] + ([cat] + Split(name, '.')));
  }

  predicate AllSupported(whitelist: map<string, string>)
  {
    forall k :: k in whitelist ==> Classify(k).Some?
  }

  /** The entries among the keys `done` that are filed under `kind`, with their values. */
  function Filed(whitelist: map<string, string>, done: set<string>, kind: ParamKind): (m: map<string, string>)
    ensures m.Keys <= whitelist.Keys
    ensures forall k :: k in m <==> k in done && k in whitelist && Classify(k) == Some(kind)
    ensures forall k :: k in m ==> m[k] == whitelist[k] && Classify(k) == Some(kind)
  {
    map k | k in done && k in whitelist && Classify(k) == Some(kind) :: whitelist[k]
  }

  /** The map of one kind once every key has been filed. */
  function ParamsOfKind(whitelist: map<string, string>, kind: ParamKind): (m: map<string, string>)
    ensures forall k :: k in whitelist && Classify(k) == Some(kind) ==> k in m && m[k] == whitelist[k]
    ensures forall k :: k in m ==> k in whitelist && Classify(k) == Some(kind)
  {
    Filed(whitelist, whitelist.Keys, kind)
  }

  /** Filing one more key adds it to the map of its own kind and leaves the other maps alone. */
  lemma FiledStep(whitelist: map<string, string>, done: set<string>, key: string, kind: ParamKind)
    requires key in whitelist && key !in done
    ensures Filed(whitelist, done + {key}, kind)
            == if Classify(key) == Some(kind) then Filed(whitelist, done, kind)[key := whitelist[key]]
               else Filed(whitelist, done, kind)
  {
  }

  /** A one-entry whitelist lands whole in the map of its key's kind and nowhere else. */
  lemma SingleEntryParams(key: string, value: string, kind: ParamKind)
    ensures ParamsOfKind(map[key := value], kind)
            == if Classify(key) == Some(kind) then map[key := value] else map[]
  {
  }

  /** When every key is supported, the three maps together are exactly the whitelist. */
  lemma ParamsPartition(whitelist: map<string, string>)
    requires AllSupported(whitelist)
    ensures ParamsOfKind(whitelist, Header) + ParamsOfKind(whitelist, QueryString)
            + ParamsOfKind(whitelist, Path) == whitelist
  {
  }

  /** Whatever the whitelist, no key is filed in two maps. */
  lemma ParamsDisjoint(whitelist: map<string, string>)
    ensures ParamsOfKind(whitelist, Header).Keys !! ParamsOfKind(whitelist, QueryString).Keys
    ensures ParamsOfKind(whitelist, Header).Keys !! ParamsOfKind(whitelist, Path).Keys
    ensures ParamsOfKind(whitelist, QueryString).Keys !! ParamsOfKind(whitelist, Path).Keys
  {
  }

  /** The fixed-shape gateway context of a mock request for `httpMethod` from process `pid`. */
  predicate IsMockContext(ctx: GatewayContext, httpMethod: string, pid: int)
  {
    && ctx.appId == "spartaApp" + IntToDecimal(pid)
    && ctx.httpMethod == httpMethod
    && ctx.requestId == MockRequestID
    && ctx.resourceId == "anon42"
    && ctx.resourcePath == "/mock"
    && ctx.stage == "mock"
    && ctx.identity == Identity("123412341234", "", "", "", "", "", "", "127.0.0.1", "Unknown", "Mozilla/Gecko", "")
  }

  /** What a successful mock request holds. */
  ghost predicate IsGatewayMock<E>(g: GatewayRequest<E>, httpMethod: string, whitelist: map<string, string>,
                             eventData: Option<E>, pid: int)
  {
    && g.httpMethod == httpMethod
    && g.data == eventData
    && g.headers == ParamsOfKind(whitelist, Header)
    && g.queryParams == ParamsOfKind(whitelist, QueryString)
    && g.pathParams == ParamsOfKind(whitelist, Path)
    && IsMockContext(g.context, httpMethod, pid)
  }

  /**
   * The body of NewAPIGatewayRequest before it hands over to
   * NewLambdaRequest: files each whitelist entry, in whatever order the map
   * yields them, and fills the context. A key with fewer than three
   * segments is rejected like an unknown category.
   */
  method NewAPIGatewayMock<E>(httpMethod: string, whitelist: map<string, string>, eventData: Option<E>, pid: int)
    returns (r: Result<GatewayRequest<E>, WhitelistError>)
    ensures r.Success? <==> AllSupported(whitelist)
    ensures r.Success? ==> IsGatewayMock(r.value, httpMethod, whitelist, eventData, pid)
    ensures r.Failure? ==> r.error.key in whitelist && Classify(r.error.key).None?
  {
    var mock := GatewayRequest(httpMethod, eventData, map[], map[], map[], ZeroContext);
    var pending := whitelist.Keys;
    while pending != {}
      invariant pending <= whitelist.Keys
      invariant forall k :: k in whitelist && k !in pending ==> Classify(k).Some?
      invariant mock.headers == Filed(whitelist, whitelist.Keys - pending, Header)
      invariant mock.queryParams == Filed(whitelist, whitelist.Keys - pending, QueryString)
      invariant mock.pathParams == Filed(whitelist, whitelist.Keys - pending, Path)
      invariant mock.httpMethod == httpMethod && mock.data == eventData && mock.context == ZeroContext
      decreases pending
    {
      var key :| key in pending;
      var value := whitelist[key];
      var parts := Split(key, '.');
      if |parts| < 3 {
        return Failure(UnsupportedWhitelistParam(key));
      }
      ghost var done := whitelist.Keys - pending;
      assert Classify(key) == KindOf(parts[2]) by {
        assert Category(key) == Some(parts[2]);
      }
      assert whitelist.Keys - (pending - {key}) == done + {key};
      FiledStep(whitelist, done, key, Header);
      FiledStep(whitelist, done, key, QueryString);
      FiledStep(whitelist, done, key, Path);
      if parts[2] == "header" {
        mock := mock.(headers := mock.headers[key := value]);
      } else if parts[2] == "querystring" {
        mock := mock.(queryParams := mock.queryParams[key := value]);
      } else if parts[2] == "path" {
        mock := mock.(pathParams := mock.pathParams[key := value]);
      } else {
        return Failure(UnsupportedWhitelistParam(key));
      }
      pending := pending - {key};
    }
    assert whitelist.Keys - pending == whitelist.Keys;

    var ctx := FillContext(mock.context, httpMethod, pid);
    mock := mock.(context := ctx);
    return Success(mock);
  }

  /** The field-by-field assignments to the gateway context once filing is done. */
  method FillContext(zero: GatewayContext, httpMethod: string, pid: int) returns (ctx: GatewayContext)
    ensures IsMockContext(ctx, httpMethod, pid)
  {
    ctx := zero;
    ctx := ctx.(appId := "spartaApp" + IntToDecimal(pid));
    ctx := ctx.(httpMethod := httpMethod);
    ctx := ctx.(requestId := MockRequestID);
    ctx := ctx.(resourceId := "anon42");
    ctx := ctx.(resourcePath := "/mock");
    ctx := ctx.(stage := "mock");
    ctx := ctx.(identity := Identity(
      "123412341234", "", "", "", "", "", "", "127.0.0.1", "Unknown", "Mozilla/Gecko", ""));
  }

  /**
   * NewAPIGatewayRequest: either the rejected key and no request at all, or
   * the Lambda request whose event is the gateway mock.
   */
  method NewAPIGatewayRequest<E>(lambdaName: string, httpMethod: string, whitelist: map<string, string>,
                                 eventData: Option<E>, testingURL: string, pid: int, now: Clock)
    returns (r: Result<MockPost<map<string, string>, GatewayRequest<E>>, WhitelistError>)
    ensures r.Success? <==> AllSupported(whitelist)
    ensures r.Failure? ==> r.error.key in whitelist && Classify(r.error.key).None?
    ensures r.Success? ==> r.value.url == testingURL + "/" + lambdaName
    ensures r.Success? ==> r.value.verb == "POST" && r.value.contentType == "application/json"
    ensures r.Success? ==>
      && OpenEnvelope(r.value.body).Some?
      && OpenEnvelope(r.value.body).value.0 == LambdaContext(now)
      && OpenEnvelope(r.value.body).value.1.Some?
      && IsGatewayMock(OpenEnvelope(r.value.body).value.1.value, httpMethod, whitelist, eventData, pid)
  {
    var mock := NewAPIGatewayMock(httpMethod, whitelist, eventData, pid);
    if mock.Failure? {
      return Failure(mock.error);
    }
    var post := NewLambdaRequest(lambdaName, Some(mock.value), testingURL, now);
    return Success(post);
  }

  // ---------------------------------------------------------------------
  // Worked cases
  // ---------------------------------------------------------------------

  /** `method.request.querystring.id` goes to the query-string map alone, with its value. */
  lemma QueryStringKeyExample()
    ensures Classify("method.request.querystring.id") == Some(QueryString)
    ensures var w := map["method.request.querystring.id" := "42"];
      && ParamsOfKind(w, QueryString) == w
      && ParamsOfKind(w, Header) == map[]
      && ParamsOfKind(w, Path) == map[]
  {
    assert "method.request.querystring.id" == "method" + "." + "request" + "." + "querystring" + "." + "id";
    WhitelistKeyCategory("method", "request", "querystring", "id");
    SingleEntryParams("method.request.querystring.id", "42", QueryString);
    SingleEntryParams("method.request.querystring.id", "42", Header);
    SingleEntryParams("method.request.querystring.id", "42", Path);
  }

  /** `method.request.cookie.session` has the unsupported category `cookie`... */
  lemma CookieKeyRejected()
    ensures Classify("method.request.cookie.session") == None
  {
    assert "method.request.cookie.session" == "method" + "." + "request" + "." + "cookie" + "." + "session";
    WhitelistKeyCategory("method", "request", "cookie", "session");
    assert KindOf("cookie") == None;
  }

  /** ...so a whitelist holding that key makes the request fail. */
  lemma CookieWhitelistFails(value: string)
    ensures !AllSupported(map["method.request.cookie.session" := value])
  {
    CookieKeyRejected();
    UnsupportedKeyBlocks(map["method.request.cookie.session" := value], "method.request.cookie.session");
  }

  /** One rejected key is enough to make the whole whitelist fail. */
  lemma UnsupportedKeyBlocks(whitelist: map<string, string>, key: string)
    requires key in whitelist && Classify(key) == None
    ensures !AllSupported(whitelist)
  {
  }

  /** A key with fewer than two dots is rejected rather than crashing. */
  lemma ShortKeyRejected(key: string)
    requires Occurrences(key, '.') < 2
    ensures Classify(key) == None
  {
  }
}
