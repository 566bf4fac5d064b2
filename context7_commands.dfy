/**
 * The Context7 settings commands: the connection test (its request, its
 * error messages and the preview it shows) and saving the API key.
 */
module Context7Commands {
  import opened Wrappers
  import opened Text
  import opened Utf8
  import opened Context7Types
  import Context7Mcp

  // ---------------------------------------------------------------------------
  // The test request
  // ---------------------------------------------------------------------------

  /** The fixed query of the connection test: Spring Framework's core documentation, page 1. */
  const TestRequest := Context7Request("spring-projects/spring-framework", Some("core"), None, Some(1))

  /** The configuration the test runs with: the stored API key and the fixed Context7 endpoint. */
  function TestConfig(storedKey: Option<string>): (config: Context7Config)
    ensures config.apiKey == storedKey
    ensures config.baseUrl == Context7BaseUrl
  {
    Context7Config(storedKey, Context7BaseUrl)
  }

  /** The test asks the Context7 endpoint for the fixed library, authenticated exactly when a key is stored. */
  lemma TestTarget(storedKey: Option<string>)
    ensures StartsWith(Context7Mcp.DocsUrl(TestConfig(storedKey).baseUrl, TestRequest.library), Context7BaseUrl + Context7Mcp.DocsPath)
    ensures |Context7Mcp.AuthHeaders(TestConfig(storedKey))| == 1 <==> storedKey.Some?
  {
  }

  /** The query parameters of the test: topic and page only; a version is never sent. */
  function TestQuery(request: Context7Request): (query: seq<(string, string)>)
    ensures |query| <= 2
    ensures query == [] <==> request.topic.None? && request.page.None?
    ensures forall i, j :: 0 <= i < j < |query| ==> Context7Mcp.ParamRank(query[i].0) < Context7Mcp.ParamRank(query[j].0)
  {
    (if request.topic.Some? then [("topic", request.topic.value)] else [])
    + (if request.page.Some? then [("page", NatToString(request.page.value))] else [])
  }

  /** Topic and page are sent exactly when present, with the request's values; version never is. */
  lemma TestQueryParams(request: Context7Request)
    ensures ParamValue(TestQuery(request), "topic") == request.topic
    ensures ParamValue(TestQuery(request), "page") == Context7Mcp.PageParam(request.page)
    ensures ParamValue(TestQuery(request), "version") == None
    ensures forall i :: 0 <= i < |TestQuery(request)| ==> TestQuery(request)[i].0 in {"topic", "page"}
    ensures forall i, j :: 0 <= i < j < |TestQuery(request)| ==> TestQuery(request)[i].0 != TestQuery(request)[j].0
  {
    var q := TestQuery(request);
    var t := if request.topic.Some? then [("topic", request.topic.value)] else [];
    var p := if request.page.Some? then [("page", NatToString(request.page.value))] else [];
    assert q == t + p;
    assert "topic" != "page" && "topic" != "version" && "page" != "version";
    if request.topic.Some? {
      assert q[0] == ("topic", request.topic.value);
    }
    if request.page.Some? {
      assert q[|t|] == ("page", NatToString(request.page.value));
    }
  }

  /** The connection test asks for exactly `topic=core&page=1`. */
  lemma TestRequestQuery()
    ensures TestQuery(TestRequest) == [("topic", "core"), ("page", "1")]
  {
    assert NatToString(1) == "1";
  }

  /** The request `execute_test_query` sends: same URL and header as a documentation query, fewer parameters. */
  method BuildTestRequest(config: Context7Config, request: Context7Request) returns (req: HttpRequest)
    ensures req == HttpRequest(Context7Mcp.DocsUrl(config.baseUrl, request.library),
                               Context7Mcp.AuthHeaders(config), TestQuery(request))
  {
    req := HttpRequest(Context7Mcp.DocsUrl(config.baseUrl, request.library), [], []);
    if config.apiKey.Some? {
      req := req.(headers := req.headers + [("Authorization", Context7Mcp.BearerPrefix + config.apiKey.value)]);
    }
    if request.topic.Some? {
      req := req.(query := req.query + [("topic", request.topic.value)]);
    }
    if request.page.Some? {
      req := req.(query := req.query + [("page", NatToString(request.page.value))]);
    }
  }

  // ---------------------------------------------------------------------------
  // Error messages of the test
  // ---------------------------------------------------------------------------

  const TestInvalidKeyMessage := "API 密钥无效或已过期"
  const TestLibraryMissingMessage := "测试库不存在 (spring-projects/spring-framework)"
  const TestRateLimitMessage := "速率限制已达上限，建议配置 API Key"
  const RequestFailedPrefix := "请求失败 (状态码: "

  function FormatTestError(status: StatusCode, errorText: string): (message: string)
    ensures status == 401 ==> message == TestInvalidKeyMessage
    ensures status == 404 ==> message == TestLibraryMissingMessage
    ensures status == 429 ==> message == TestRateLimitMessage
    ensures Context7Mcp.IsServerError(status) ==> message == Context7Mcp.ServerErrorPrefix + errorText
    ensures status !in {401, 404, 429} && !Context7Mcp.IsServerError(status) ==>
      && StartsWith(message, RequestFailedPrefix + NatToString(status) + "): ")
      && |message| == |RequestFailedPrefix + NatToString(status) + "): "| + |errorText|
      && OccursAt(message, NatToString(status), |RequestFailedPrefix|)
      && ParseDecimal(message[|RequestFailedPrefix|..|RequestFailedPrefix| + |NatToString(status)|]) == status
      && EndsWith(message, errorText)
  {
    match status
    case 401 => TestInvalidKeyMessage
    case 404 => TestLibraryMissingMessage
    case 429 => TestRateLimitMessage
    case _ =>
      if Context7Mcp.IsServerError(status) then Context7Mcp.ServerErrorPrefix + errorText
      else
        var code := NatToString(status);
        var message := RequestFailedPrefix + code + "): " + errorText;
        assert message[|RequestFailedPrefix|..|RequestFailedPrefix| + |code|] == code;
        ParseNatToString(status);
        message
  }

  /** The test and the documentation tool word server errors the same way. */
  lemma ServerErrorsWordedAlike(status: StatusCode, errorText: string)
    requires Context7Mcp.IsServerError(status)
    ensures FormatTestError(status, errorText) == Context7Mcp.FormatErrorMessage(status, errorText)
  {
  }

  /** A 2xx status (`StatusCode::is_success`). */
  function IsSuccess(status: StatusCode): (success: bool)
    ensures success ==> status !in {401, 404, 429} && !Context7Mcp.IsServerError(status)
    ensures success <==> 200 <= status < 300
  {
    200 <= status <= 299
  }

  // ---------------------------------------------------------------------------
  // The preview
  // ---------------------------------------------------------------------------

  /** Bytes of the first snippet shown before the preview is cut. */
  const PreviewLimit: nat := 200

  const NoContentMessage := "未找到文档内容"
  const Ellipsis := "..."

  /** The cut `&content[..200]` lands on a character boundary (Rust panics otherwise). */
  predicate PreviewCutIsSafe(response: Context7Response) {
    var cut := response.snippets != [] && |Encode(response.snippets[0].content)| > PreviewLimit;
    cut ==> IsCharBoundary(Encode(response.snippets[0].content), PreviewLimit)
  }

  /**
   * The UTF-8 bytes of the preview: the first snippet's content when it has
   * at most 200 bytes, else its first 200 bytes and `...`; a fixed message
   * when there are no snippets.
   */
  function Preview(response: Context7Response): (preview: seq<byte>)
    requires PreviewCutIsSafe(response)
    ensures response.snippets == [] ==> preview == Encode(NoContentMessage)
    ensures response.snippets != [] && |Encode(response.snippets[0].content)| <= PreviewLimit ==>
      preview == Encode(response.snippets[0].content)
    ensures response.snippets != [] && |Encode(response.snippets[0].content)| > PreviewLimit ==>
      && |preview| == PreviewLimit + 3
      && preview[..PreviewLimit] == Encode(response.snippets[0].content)[..PreviewLimit]
      && preview[PreviewLimit..] == Encode(Ellipsis)
  {
    if response.snippets != [] then
      var content := Encode(response.snippets[0].content);
      if |content| > PreviewLimit then content[..PreviewLimit] + Encode(Ellipsis) else content
    else
      Encode(NoContentMessage)
  }

  /** A cut preview is the encoding of a prefix of the content, characters intact, followed by `...`. */
  lemma PreviewIsCharPrefix(response: Context7Response)
    requires PreviewCutIsSafe(response)
    requires response.snippets != [] && |Encode(response.snippets[0].content)| > PreviewLimit
    ensures exists k ::
      && 0 <= k < |response.snippets[0].content|
      && Preview(response) == Encode(response.snippets[0].content[..k] + Ellipsis)
  {
    var s := response.snippets[0].content;
    BoundaryIsCharPrefix(s, PreviewLimit);
    var k :| 0 <= k <= |s| && Encode(s)[..PreviewLimit] == Encode(s[..k]);
    assert k < |s| by {
      assert |Encode(s[..k])| == PreviewLimit < |Encode(s)|;
      assert s[..|s|] == s;
    }
    EncodeAppend(s[..k], Ellipsis);
    assert Preview(response) == Encode(s[..k] + Ellipsis);
  }

  /** 199 ASCII characters and then one CJK character: 202 bytes, with byte 200 inside the last character. */
  function SplitCharContent(): string {
    seq(199, _ => 'a') + "文"
  }

  /** On that content the byte cut of the preview splits a character, so `&content[..200]` panics. */
  lemma PreviewCutCanSplitChar()
    ensures !PreviewCutIsSafe(Context7Response([Snippet(None, SplitCharContent())], None))
  {
    var ascii := seq(199, _ => 'a');
    AsciiEncoding(ascii);
    EncodeAppend(ascii, "文");
    var tail := Encode("文");
    assert tail == EncodeChar('文');
    assert Encode(SplitCharContent()) == Encode(ascii) + tail;
    assert IsContinuation(tail[1]);
  }

  /** Characters of the first snippet shown before the preview is cut, as the comment on the preview says. */
  const PreviewCharLimit: nat := 200

  /**
   * The preview as intended: the first 200 characters of the first snippet
   * and `...` when it is longer, the whole content otherwise, a fixed message
   * when there are no snippets. Defined for every response.
   */
  function CorrectedPreview(response: Context7Response): (preview: string)
    ensures response.snippets == [] ==> preview == NoContentMessage
    ensures response.snippets != [] && |response.snippets[0].content| <= PreviewCharLimit ==>
      preview == response.snippets[0].content
    ensures response.snippets != [] && |response.snippets[0].content| > PreviewCharLimit ==>
      && |preview| == PreviewCharLimit + |Ellipsis|
      && StartsWith(response.snippets[0].content, preview[..PreviewCharLimit])
      && EndsWith(preview, Ellipsis)
  {
    if response.snippets != [] then
      var content := response.snippets[0].content;
      if |content| > PreviewCharLimit then content[..PreviewCharLimit] + Ellipsis else content
    else
      NoContentMessage
  }

  /** Where every character is one byte, the corrected preview is byte for byte the one the code computes. */
  lemma CorrectedPreviewAgreesOnAscii(response: Context7Response)
    requires response.snippets != [] ==> IsAscii(response.snippets[0].content)
    ensures PreviewCutIsSafe(response)
    ensures Encode(CorrectedPreview(response)) == Preview(response)
  {
    if response.snippets != [] {
      var s := response.snippets[0].content;
      AsciiEncoding(s);
      if |s| > PreviewCharLimit {
        var head := s[..PreviewCharLimit];
        assert s == head + s[PreviewCharLimit..];
        EncodeAppend(head, s[PreviewCharLimit..]);
        assert IsAscii(head);
        AsciiEncoding(head);
        assert Encode(s)[..PreviewLimit] == Encode(head);
        EncodeAppend(head, Ellipsis);
      }
    }
  }

  const ClientFailedPrefix := "创建 HTTP 客户端失败: "
  const SendFailedPrefix := "请求失败: "
  const UnreadableErrorText := "无法读取错误信息"
  const ReadFailedPrefix := "读取响应失败: "
  const ParseFailedPrefix := "解析响应失败: "

  /**
   * How the outside steps of one test query went: building the HTTP client,
   * sending, the status with the error body (none when it cannot be read),
   * reading the body of a 2xx answer, and decoding it.
   */
  datatype TestExchange = TestExchange(
    clientError: Option<string>,
    sendError: Option<string>,
    status: StatusCode,
    errorBody: Option<string>,
    readError: Option<string>,
    parsed: Result<Context7Response, string>)

  /** The server answered: the client was built and the request sent. */
  predicate Answered(x: TestExchange) {
    x.clientError.None? && x.sendError.None?
  }

  /** Every step succeeded, so the preview is computed. */
  predicate PreviewReached(x: TestExchange) {
    Answered(x) && IsSuccess(x.status) && x.readError.None? && x.parsed.Ok?
  }

  /**
   * What `execute_test_query` returns, as written: the first failing step's
   * message, or the UTF-8 bytes of the preview. An exchange whose preview cut
   * would split a character is excluded, because the code panics there.
   */
  function TestQueryResult(x: TestExchange): (r: Result<seq<byte>, string>)
    requires PreviewReached(x) ==> PreviewCutIsSafe(x.parsed.value)
    ensures r.Ok? <==> PreviewReached(x)
    ensures PreviewReached(x) ==> r == Ok(Preview(x.parsed.value))
    ensures x.clientError.Some? ==> r == Err(ClientFailedPrefix + x.clientError.value)
    ensures x.clientError.None? && x.sendError.Some? ==> r == Err(SendFailedPrefix + x.sendError.value)
    ensures Answered(x) && !IsSuccess(x.status) ==>
      r == Err(FormatTestError(x.status, x.errorBody.GetOr(UnreadableErrorText)))
    ensures Answered(x) && IsSuccess(x.status) && x.readError.Some? ==>
      r == Err(ReadFailedPrefix + x.readError.value)
    ensures Answered(x) && IsSuccess(x.status) && x.readError.None? && x.parsed.Err? ==>
      r == Err(ParseFailedPrefix + x.parsed.error)
  {
    if x.clientError.Some? then Err(ClientFailedPrefix + x.clientError.value)
    else if x.sendError.Some? then Err(SendFailedPrefix + x.sendError.value)
    else if !IsSuccess(x.status) then Err(FormatTestError(x.status, x.errorBody.GetOr(UnreadableErrorText)))
    else if x.readError.Some? then Err(ReadFailedPrefix + x.readError.value)
    else
      match x.parsed
      case Err(e) => Err(ParseFailedPrefix + e)
      case Ok(response) => Ok(Preview(response))
  }

  /**
   * The test query with the preview as intended: defined for every exchange,
   * the same as the code wherever the preview is not reached, and the corrected
   * preview's bytes where it is.
   */
  function CorrectedTestQueryResult(x: TestExchange): (r: Result<seq<byte>, string>)
    ensures !PreviewReached(x) ==> r == TestQueryResult(x)
    ensures PreviewReached(x) ==> r == Ok(Encode(CorrectedPreview(x.parsed.value)))
  {
    if PreviewReached(x) then Ok(Encode(CorrectedPreview(x.parsed.value))) else TestQueryResult(x)
  }

  /** Where the first snippet is ASCII, the corrected test query answers exactly as the code does. */
  lemma CorrectedTestQueryAgreesOnAscii(x: TestExchange)
    requires PreviewReached(x) && x.parsed.value.snippets != [] ==> IsAscii(x.parsed.value.snippets[0].content)
    ensures PreviewReached(x) ==> PreviewCutIsSafe(x.parsed.value)
    ensures CorrectedTestQueryResult(x) == TestQueryResult(x)
  {
    if PreviewReached(x) {
      CorrectedPreviewAgreesOnAscii(x.parsed.value);
    }
  }

  /** The reply of `test_context7_connection`; the preview is kept as its UTF-8 bytes. */
  datatype TestConnectionResponse = TestConnectionResponse(success: bool, message: string, preview: Option<seq<byte>>)

  const ConnectedMessage := "连接成功! 已获取 Spring Framework 文档"
  const ConnectFailedPrefix := "连接失败: "

  /** `test_context7_connection` always answers: success with a preview, or failure with the reason. */
  function ConnectionResponse(outcome: Result<seq<byte>, string>): (response: TestConnectionResponse)
    ensures response.success <==> outcome.Ok?
    ensures response.preview.Some? <==> outcome.Ok?
    ensures outcome.Ok? ==> response.preview == Some(outcome.value) && response.message == ConnectedMessage
    ensures outcome.Err? ==> response.message == ConnectFailedPrefix + outcome.error
  {
    match outcome
    case Ok(preview) => TestConnectionResponse(true, ConnectedMessage, Some(preview))
    case Err(e) => TestConnectionResponse(false, ConnectFailedPrefix + e, None)
  }

  // ---------------------------------------------------------------------------
  // Saving the API key
  // ---------------------------------------------------------------------------

  /** The key as stored: none for a blank entry, else the entry without surrounding white space. */
  function NormalizeApiKey(apiKey: string): (stored: Option<string>)
    ensures stored.None? <==> AllWhiteSpace(apiKey)
    ensures stored.Some? ==>
      && stored.value == Trim(apiKey)
      && stored.value != []
      && !IsWhiteSpace(stored.value[0])
      && !IsWhiteSpace(stored.value[|stored.value| - 1])
  {
    var trimmed := Trim(apiKey);
    if trimmed == [] then None else Some(trimmed)
  }

  /** Saving a key that was stored before stores it unchanged. */
  lemma NormalizeApiKeyStable(apiKey: string)
    requires NormalizeApiKey(apiKey).Some?
    ensures NormalizeApiKey(NormalizeApiKey(apiKey).value) == NormalizeApiKey(apiKey)
  {
    TrimIdempotent(apiKey);
  }

  const SaveFailedPrefix := "保存配置失败: "

  /** The part of the application's configuration these commands read and write. */
  class McpConfig {
    var context7ApiKey: Option<string>

    constructor (apiKey: Option<string>)
      ensures context7ApiKey == apiKey
    {
      context7ApiKey := apiKey;
    }

    /** `get_context7_config`: the stored key, as stored. */
    method GetContext7ApiKey() returns (apiKey: Option<string>)
      ensures apiKey == context7ApiKey
    {
      apiKey := context7ApiKey;
    }

    /**
     * `save_context7_config`: stores the normalized key, then persists the
     * configuration. The key stays updated in memory even when persisting
     * fails (`persistError`), which is then reported.
     */
    method SaveContext7Config(apiKey: string, persistError: Option<string>) returns (r: Result<Unit, string>)
      modifies this
      ensures context7ApiKey == NormalizeApiKey(apiKey)
      ensures persistError.None? ==> r == Ok(Unit)
      ensures persistError.Some? ==> r == Err(SaveFailedPrefix + persistError.value)
    {
      context7ApiKey := if Trim(apiKey) == [] then None else Some(Trim(apiKey));
      if persistError.Some? {
        return Err(SaveFailedPrefix + persistError.value);
      }
      r := Ok(Unit);
    }
  }
}
