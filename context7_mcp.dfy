/**
 * The Context7 documentation tool: the request it sends (`fetch_docs`), the
 * message it shows for an HTTP error status (`format_error_message`) and the
 * Markdown document it builds from a response (`format_response`).
 */
module Context7Mcp {
  import opened Wrappers
  import opened Text
  import opened Context7Types

  // ---------------------------------------------------------------------------
  // The request
  // ---------------------------------------------------------------------------

  const DocsPath := "/docs/code/"

  function DocsUrl(baseUrl: string, library: string): (url: string)
    ensures StartsWith(url, baseUrl + DocsPath)
    ensures url[|baseUrl + DocsPath|..] == library
  {
    baseUrl + DocsPath + library
  }

  /** Different libraries are fetched from different URLs. */
  lemma DocsUrlInjective(baseUrl: string, library1: string, library2: string)
    requires DocsUrl(baseUrl, library1) == DocsUrl(baseUrl, library2)
    ensures library1 == library2
  {
    assert library1 == DocsUrl(baseUrl, library1)[|baseUrl + DocsPath|..];
  }

  const BearerPrefix := "Bearer "

  /** The Authorization header, present exactly when an API key is configured. */
  function AuthHeaders(config: Context7Config): (headers: seq<(string, string)>)
    ensures |headers| <= 1
    ensures headers != [] <==> config.apiKey.Some?
    ensures config.apiKey.Some? ==>
      && headers[0].0 == "Authorization"
      && StartsWith(headers[0].1, BearerPrefix)
      && headers[0].1[|BearerPrefix|..] == config.apiKey.value
  {
    match config.apiKey
    case Some(key) => [("Authorization", BearerPrefix + key)]
    case None => []
  }

  /** The query parameters of a documentation request, in the order the builder adds them. */
  function DocsQuery(request: Context7Request): (query: seq<(string, string)>)
    ensures |query| <= 3
    ensures query == [] <==> request.topic.None? && request.version.None? && request.page.None?
    ensures forall i, j :: 0 <= i < j < |query| ==> ParamRank(query[i].0) < ParamRank(query[j].0)
  {
    (if request.topic.Some? then [("topic", request.topic.value)] else [])
    + (if request.version.Some? then [("version", request.version.value)] else [])
    + (if request.page.Some? then [("page", NatToString(request.page.value))] else [])
  }

  /** The position of a parameter in the order the builders add them: topic, version, page. */
  function ParamRank(name: string): nat {
    if name == "topic" then 0 else if name == "version" then 1 else 2
  }

  /** The page number as sent: its decimal spelling. */
  function PageParam(page: Option<nat>): Option<string> {
    match page
    case Some(p) => Some(NatToString(p))
    case None => None
  }

  /**
   * Each of topic, version and page is sent exactly when the request has it,
   * with the request's value, at most once, and no other parameter is sent.
   */
  lemma DocsQueryParams(request: Context7Request)
    ensures ParamValue(DocsQuery(request), "topic") == request.topic
    ensures ParamValue(DocsQuery(request), "version") == request.version
    ensures ParamValue(DocsQuery(request), "page") == PageParam(request.page)
    ensures forall i :: 0 <= i < |DocsQuery(request)| ==> DocsQuery(request)[i].0 in {"topic", "version", "page"}
    ensures forall i, j :: 0 <= i < j < |DocsQuery(request)| ==> DocsQuery(request)[i].0 != DocsQuery(request)[j].0
  {
    var q := DocsQuery(request);
    assert "topic" != "version" && "topic" != "page" && "version" != "page";
    var t := if request.topic.Some? then [("topic", request.topic.value)] else [];
    var v := if request.version.Some? then [("version", request.version.value)] else [];
    var p := if request.page.Some? then [("page", NatToString(request.page.value))] else [];
    assert q == t + v + p;
    if request.topic.Some? {
      assert q[0] == ("topic", request.topic.value);
    }
    if request.version.Some? {
      assert q[|t|] == ("version", request.version.value);
    }
    if request.page.Some? {
      assert q[|t| + |v|] == ("page", NatToString(request.page.value));
    }
  }

  /**
   * The request `fetch_docs` sends: a GET of `base_url/docs/code/library`,
   * a bearer token when a key is configured, then the optional parameters.
   */
  method BuildDocsRequest(config: Context7Config, request: Context7Request) returns (req: HttpRequest)
    ensures req == HttpRequest(DocsUrl(config.baseUrl, request.library), AuthHeaders(config), DocsQuery(request))
  {
    req := HttpRequest(DocsUrl(config.baseUrl, request.library), [], []);
    if config.apiKey.Some? {
      req := req.(headers := req.headers + [("Authorization", BearerPrefix + config.apiKey.value)]);
    }
    if request.topic.Some? {
      req := req.(query := req.query + [("topic", request.topic.value)]);
    }
    if request.version.Some? {
      req := req.(query := req.query + [("version", request.version.value)]);
    }
    if request.page.Some? {
      req := req.(query := req.query + [("page", NatToString(request.page.value))]);
    }
  }

  // ---------------------------------------------------------------------------
  // Error messages
  // ---------------------------------------------------------------------------

  const InvalidKeyMessage := "API 密钥无效或已过期，请检查配置"
  const LibraryNotFoundPrefix := "库不存在或拼写错误: "
  const RateLimitMessage := "速率限制已达上限，建议配置 API Key 以获得更高速率限制"
  const ServerErrorPrefix := "Context7 服务器错误: "

  /** The server-error class 5xx (section 15.6 of RFC 9110). */
  predicate IsServerError(status: StatusCode) {
    500 <= status <= 599
  }

  function FormatErrorMessage(status: StatusCode, errorText: string): (message: string)
    ensures status == 401 ==> message == InvalidKeyMessage
    ensures status == 429 ==> message == RateLimitMessage
    ensures status == 404 ==> message == LibraryNotFoundPrefix + errorText
    ensures IsServerError(status) ==> message == ServerErrorPrefix + errorText
    ensures status !in {401, 404, 429} && !IsServerError(status) ==> message == errorText
  {
    match status
    case 401 => InvalidKeyMessage
    case 404 => LibraryNotFoundPrefix + errorText
    case 429 => RateLimitMessage
    case _ => if IsServerError(status) then ServerErrorPrefix + errorText else errorText
  }

  /**
   * The server's error text reaches the message for every status except 401
   * and 429, whose messages are fixed: a status ignores the text exactly when
   * it is one of those two.
   */
  lemma FormatErrorMessageUsesText(status: StatusCode)
    ensures (forall t1, t2 :: FormatErrorMessage(status, t1) == FormatErrorMessage(status, t2))
      <==> status == 401 || status == 429
  {
    if status != 401 && status != 429 {
      assert |FormatErrorMessage(status, "x")| == |FormatErrorMessage(status, "")| + 1;
    }
  }

  // ---------------------------------------------------------------------------
  // The Markdown document
  // ---------------------------------------------------------------------------

  function Header(library: string): string {
    "# " + library + " 文档\n\n"
  }

  const TopicLabel := "**主题**: "
  const VersionLabel := "**版本**: "
  const MetadataSeparator := "\n---\n\n"

  function TopicLine(topic: string): string {
    TopicLabel + topic + "\n"
  }

  function VersionLine(version: string): string {
    VersionLabel + version + "\n"
  }

  /** The optional topic and version lines and the rule under them. */
  function Metadata(request: Context7Request): string {
    (if request.topic.Some? then TopicLine(request.topic.value) else "")
    + (if request.version.Some? then VersionLine(request.version.value) else "")
    + MetadataSeparator
  }

  const NoDocsLine := "未找到相关文档。请尝试调整查询参数。\n"

  /** A snippet's heading: its title, or its 1-based position when it has none. */
  function SnippetHeading(index: nat, snippet: Snippet): string {
    match snippet.title
    case Some(title) => "## " + title + "\n\n"
    case None => "## 片段 " + NatToString(index + 1) + "\n\n"
  }

  function SnippetSection(index: nat, snippet: Snippet): string {
    SnippetHeading(index, snippet) + snippet.content + "\n\n"
  }

  /** The sections of `snippets`, numbered from 0, one after another. */
  function SnippetsMarkdown(snippets: seq<Snippet>): string {
    if snippets == [] then ""
    else SnippetsMarkdown(snippets[..|snippets| - 1]) + SnippetSection(|snippets| - 1, snippets[|snippets| - 1])
  }

  function Body(snippets: seq<Snippet>): string {
    if snippets == [] then NoDocsLine else SnippetsMarkdown(snippets)
  }

  function PageLine(pagination: Pagination): string {
    "📄 第 " + NatToString(pagination.currentPage) + "/" + NatToString(pagination.totalPages) + " 页"
  }

  function NextPageHint(nextPage: nat): string {
    " | 使用 `page: " + NatToString(nextPage) + "` 查看下一页"
  }

  function PaginationBlock(pagination: Option<Pagination>): string {
    match pagination
    case None => ""
    case Some(p) =>
      "---\n\n" + PageLine(p) + (if p.hasNext then NextPageHint(p.currentPage + 1) else "") + "\n"
  }

  function SourceFooter(library: string): string {
    "\n🔗 来源: Context7 - " + library + "\n"
  }

  /** The whole document: header, metadata, snippets, pagination, source line. */
  function ResponseMarkdown(response: Context7Response, request: Context7Request): (doc: string)
    ensures StartsWith(doc, Header(request.library))
    ensures EndsWith(doc, SourceFooter(request.library))
  {
    Header(request.library) + DocumentMiddle(response, request) + SourceFooter(request.library)
  }

  /** Everything between the title and the source line. */
  function DocumentMiddle(response: Context7Response, request: Context7Request): string {
    Metadata(request) + Body(response.snippets) + PaginationBlock(response.pagination)
  }

  /** Building the document step by step, as `format_response` appends to its output. */
  method FormatResponse(response: Context7Response, request: Context7Request) returns (output: string)
    ensures output == ResponseMarkdown(response, request)
  {
    var header := Header(request.library);
    output := AppendMetadata(header, request);
    var snippets := response.snippets;
    if snippets == [] {
      output := output + NoDocsLine;
    } else {
      output := AppendSnippets(output, snippets);
    }
    output := AppendPagination(output, response.pagination);
    ConcatAssoc(header, Metadata(request), Body(snippets));
    ConcatAssoc(header, Metadata(request) + Body(snippets), PaginationBlock(response.pagination));
    assert output == header + DocumentMiddle(response, request);
    output := output + SourceFooter(request.library);
  }

  /** The topic and version lines, each when given, and the rule under them. */
  method AppendMetadata(output: string, request: Context7Request) returns (extended: string)
    ensures extended == output + Metadata(request)
  {
    ghost var topicPart := if request.topic.Some? then TopicLine(request.topic.value) else "";
    ghost var versionPart := if request.version.Some? then VersionLine(request.version.value) else "";
    extended := output;
    if request.topic.Some? {
      extended := extended + TopicLine(request.topic.value);
    }
    if request.version.Some? {
      extended := extended + VersionLine(request.version.value);
    }
    ConcatAssoc(output, topicPart, versionPart);
    extended := extended + MetadataSeparator;
    ConcatAssoc(output, topicPart + versionPart, MetadataSeparator);
  }

  /** The page line and, when there is a next page, the hint to ask for it. */
  method AppendPagination(output: string, pagination: Option<Pagination>) returns (extended: string)
    ensures extended == output + PaginationBlock(pagination)
  {
    extended := output;
    if pagination.Some? {
      var p := pagination.value;
      ghost var hintPart := if p.hasNext then NextPageHint(p.currentPage + 1) else "";
      extended := extended + "---\n\n";
      extended := extended + PageLine(p);
      if p.hasNext {
        extended := extended + NextPageHint(p.currentPage + 1);
      }
      extended := extended + "\n";
      ConcatAssoc(output, "---\n\n", PageLine(p));
      ConcatAssoc(output, "---\n\n" + PageLine(p), hintPart);
      ConcatAssoc(output, "---\n\n" + PageLine(p) + hintPart, "\n");
    }
  }

  /** The `for (idx, snippet) in snippets.iter().enumerate()` loop of `format_response`. */
  method AppendSnippets(output: string, snippets: seq<Snippet>) returns (extended: string)
    ensures extended == output + SnippetsMarkdown(snippets)
  {
    extended := output;
    var i := 0;
    while i < |snippets|
      invariant 0 <= i <= |snippets|
      invariant extended == output + SnippetsMarkdown(snippets[..i])
    {
      var section := SnippetSection(i, snippets[i]);
      SnippetsMarkdownStep(snippets, i);
      ConcatAssoc(output, SnippetsMarkdown(snippets[..i]), section);
      extended := extended + section;
      i := i + 1;
    }
    assert snippets[..i] == snippets;
  }

  /** The sections of the first `i + 1` snippets are those of the first `i` and then snippet `i`'s. */
  lemma SnippetsMarkdownStep(snippets: seq<Snippet>, i: nat)
    requires i < |snippets|
    ensures SnippetsMarkdown(snippets[..i + 1]) == SnippetsMarkdown(snippets[..i]) + SnippetSection(i, snippets[i])
  {
    assert snippets[..i + 1][..i] == snippets[..i];
  }

  // ---------------------------------------------------------------------------
  // Properties of the document
  // ---------------------------------------------------------------------------

  /**
   * The topic line comes first exactly when there is a topic; after it the
   * version line comes exactly when there is a version; the rule follows.
   */
  lemma MetadataLines(request: Context7Request)
    ensures StartsWith(Metadata(request), TopicLabel) <==> request.topic.Some?
    ensures request.topic.Some? ==> StartsWith(Metadata(request), TopicLine(request.topic.value))
    ensures var afterTopic := Metadata(request)[if request.topic.Some? then |TopicLine(request.topic.value)| else 0..];
      && (StartsWith(afterTopic, VersionLabel) <==> request.version.Some?)
      && (request.version.Some? ==> StartsWith(afterTopic, VersionLine(request.version.value)))
    ensures EndsWith(Metadata(request), MetadataSeparator)
  {
    var m := Metadata(request);
    var t := if request.topic.Some? then TopicLine(request.topic.value) else "";
    var v := if request.version.Some? then VersionLine(request.version.value) else "";
    var rest := v + MetadataSeparator;
    ConcatAssoc(t, v, MetadataSeparator);
    assert m == t + rest;
    PrefixOfConcat(t, rest);
    PrefixOfConcat(v, MetadataSeparator);
    assert EndsWith(m, MetadataSeparator) by {
      assert m == (t + v) + MetadataSeparator;
    }
    if request.version.Some? {
      LabelStartsLine(VersionLabel, request.version.value);
      StartsWithTransitive(rest, v, VersionLabel);
    } else {
      assert rest == MetadataSeparator;
      DiffersAt(rest, VersionLabel, 2);
    }
    if request.topic.Some? {
      LabelStartsLine(TopicLabel, request.topic.value);
      StartsWithTransitive(m, t, TopicLabel);
    } else if request.version.Some? {
      assert rest[2] == VersionLabel[2];
      DiffersAt(m, TopicLabel, 2);
    } else {
      DiffersAt(m, TopicLabel, 2);
    }
  }

  /** A labelled line starts with its label. */
  lemma LabelStartsLine(tag: string, value: string)
    ensures StartsWith(tag + value + "\n", tag)
  {
    ConcatAssoc(tag, value, "\n");
    PrefixOfConcat(tag, value + "\n");
  }

  /** Appending one more snippet appends its section and leaves the earlier ones in place. */
  lemma {:induction false} SnippetsMarkdownPrefix(snippets: seq<Snippet>, n: nat)
    requires n <= |snippets|
    ensures StartsWith(SnippetsMarkdown(snippets), SnippetsMarkdown(snippets[..n]))
    decreases |snippets| - n
  {
    if n < |snippets| {
      SnippetsMarkdownPrefix(snippets, n + 1);
      assert snippets[..n + 1][..n] == snippets[..n];
      var shorter, longer := SnippetsMarkdown(snippets[..n]), SnippetsMarkdown(snippets[..n + 1]);
      assert longer == shorter + SnippetSection(n, snippets[n]);
      assert SnippetsMarkdown(snippets)[..|shorter|] == longer[..|shorter|];
    } else {
      assert snippets[..n] == snippets;
    }
  }

  /**
   * Snippet `i` contributes its section right after the sections of the
   * snippets before it: sections appear in input order, each numbered or
   * titled as its own snippet says.
   */
  lemma SnippetsInOrder(snippets: seq<Snippet>, i: nat)
    requires i < |snippets|
    ensures OccursAt(SnippetsMarkdown(snippets), SnippetSection(i, snippets[i]), |SnippetsMarkdown(snippets[..i])|)
    ensures |SnippetsMarkdown(snippets[..i + 1])| == |SnippetsMarkdown(snippets[..i])| + |SnippetSection(i, snippets[i])|
  {
    SnippetsMarkdownPrefix(snippets, i + 1);
    SnippetsMarkdownStep(snippets, i);
    OccursAfterPrefix(SnippetsMarkdown(snippets), SnippetsMarkdown(snippets[..i]), SnippetSection(i, snippets[i]));
  }

  /** A snippet section starts with its title, or with its 1-based number, and ends with its content and a blank line. */
  lemma SnippetSectionShape(index: nat, snippet: Snippet)
    ensures snippet.title.Some? ==> StartsWith(SnippetSection(index, snippet), "## " + snippet.title.value + "\n\n")
    ensures snippet.title.None? ==> StartsWith(SnippetSection(index, snippet), "## 片段 " + NatToString(index + 1) + "\n\n")
    ensures EndsWith(SnippetSection(index, snippet), snippet.content + "\n\n")
  {
    var h := SnippetHeading(index, snippet);
    assert SnippetSection(index, snippet) == h + (snippet.content + "\n\n");
  }

  /**
   * The pagination block is there exactly when the response has pagination,
   * and it ends with the hint naming page `current_page + 1` exactly when
   * there is a next page.
   */
  lemma PaginationBlockShape(pagination: Option<Pagination>)
    ensures PaginationBlock(pagination) == "" <==> pagination.None?
    ensures pagination.Some? ==> StartsWith(PaginationBlock(pagination), "---\n\n" + PageLine(pagination.value))
    ensures pagination.Some? ==>
      var hint := NextPageHint(pagination.value.currentPage + 1) + "\n";
      (EndsWith(PaginationBlock(pagination), hint) <==> pagination.value.hasNext)
  {
    if pagination.Some? {
      var p := pagination.value;
      var block := PaginationBlock(pagination);
      var hint := NextPageHint(p.currentPage + 1) + "\n";
      var line := "---\n\n" + PageLine(p);
      if p.hasNext {
        assert block == line + hint;
      } else {
        assert block == line + "\n";
        assert |line| >= 2 && line[|line| - 2] == ' ';
        assert |hint| >= 3 && hint[|hint| - 3] == '一';
        assert block[|block| - 3] == ' ';
      }
      assert block[..|line|] == line;
    }
  }
}
