/** The optional Cloudflare proxy of archive/deploy/cloudflare-worker/worker.js: a chain of
    early-return checks (method, path, content, origin) in front of the DeepSeek chat API.
    The upstream `fetch` is a function parameter. */
module Worker {
  import opened Util
  import opened Text
  import Llm

  const CompletionsSuffix := "/chat/completions"
  const UpstreamUrl := "https://api.deepseek.com/chat/completions"
  const AllowOrigin := "Access-Control-Allow-Origin"
  /** The prompt words only the extension's own requests carry. */
  const Keywords: seq<string> := ["书签分类", "现有文件夹"]
  const NotBusinessError := "Forbidden: 此接口仅供书签分类插件使用，禁止通用聊天用途。"
  const BadOriginError := "Forbidden: 非法插件来源"

  /** One chat message; only its content is read. */
  datatype Message = Message(content: Option<string>)

  /** The parsed JSON body; `messages` is absent when the field is missing or falsy. */
  datatype Body = Body(messages: Option<seq<Message>>)

  /** An incoming request. `body` is `Err(m)` when reading it as JSON throws with message `m`
      (text that is not JSON, or a JSON `null` whose fields cannot be read). */
  datatype Request = Request(httpMethod: string, path: string, body: Result<Body>, origin: Option<string>)

  /** The worker's variables. */
  datatype Env = Env(apiKey: Option<string>, allowedExtensionId: Option<string>)

  /** A response body: none, plain text, `JSON.stringify({error: m})`, or the upstream's
      body passed through. */
  datatype ResponseBody = NoBody | Text(text: string) | ErrorJson(message: string) | Relayed(data: string)

  datatype Response = Response(status: nat, body: ResponseBody, headers: map<string, string>)

  /** The call made upstream: fixed endpoint, the worker's key, the parsed body re-sent. */
  datatype Upstream = Upstream(url: string, authorization: string, body: Body)

  /** What the upstream answered. */
  datatype Reply = Reply(status: nat, data: string, headers: map<string, string>)

  /** Which branch of the chain a request takes. */
  datatype Verdict = Preflight | MethodNotAllowed | InvalidPath | Failed(message: string)
                   | NotBusiness | BadOrigin | Forward(body: Body)

  function PreflightHeaders(): map<string, string> {
    map[AllowOrigin := "*", "Access-Control-Allow-Methods" := "POST, OPTIONS",
        "Access-Control-Allow-Headers" := "Content-Type, Authorization"]
  }

  /** `messages[messages.length - 1]?.content || ""` with `body.messages || []`. */
  function LastContent(messages: Option<seq<Message>>): (r: string)
    ensures messages.None? || messages.value == [] ==> r == ""
    ensures messages.Some? && messages.value != [] ==> r == Or(messages.value[|messages.value| - 1].content, "")
  {
    var ms := if messages.Some? then messages.value else [];
    if ms == [] then "" else Or(ms[|ms| - 1].content, "")
  }

  /** `keywords.some(k => content.includes(k))`. */
  predicate HasKeyword(content: string, keywords: seq<string>) {
    exists k :: 0 <= k < |keywords| && Contains(content, keywords[k])
  }

  /** With `ALLOWED_EXTENSION_ID` set, the `Origin` header (or `""`) must contain it. */
  predicate OriginAllowed(env: Env, origin: Option<string>) {
    !Truthy(env.allowedExtensionId) || Contains(Or(origin, ""), env.allowedExtensionId.value)
  }

  /** The chain of checks, in the worker's order. */
  function Check(req: Request, env: Env): Verdict {
    if req.httpMethod == "OPTIONS" then Preflight
    else if req.httpMethod != "POST" then MethodNotAllowed
    else if !EndsWith(req.path, CompletionsSuffix) then InvalidPath
    else if req.body.Err? then Failed(req.body.error)
    else if !HasKeyword(LastContent(req.body.value.messages), Keywords) then NotBusiness
    else if !OriginAllowed(env, req.origin) then BadOrigin
    else Forward(req.body.value)
  }

  /** The upstream call for a forwarded body: `Bearer ${env.DEEPSEEK_API_KEY}`. */
  function UpstreamOf(env: Env, body: Body): Upstream {
    Upstream(UpstreamUrl, "Bearer " + Show(env.apiKey), body)
  }

  /** The response of a verdict; `fetch` is the upstream call, `Err(m)` when it throws. */
  function Respond(v: Verdict, env: Env, fetch: Upstream -> Result<Reply>): Response {
    match v
    case Preflight => Response(200, NoBody, PreflightHeaders())
    case MethodNotAllowed => Response(405, Text("Method Not Allowed"), map[])
    case InvalidPath => Response(404, Text("Invalid Path"), map[])
    case Failed(m) => Response(500, ErrorJson(m), map[AllowOrigin := "*"])
    case NotBusiness => Response(403, ErrorJson(NotBusinessError), map[])
    case BadOrigin => Response(403, ErrorJson(BadOriginError), map[])
    case Forward(b) =>
      match fetch(UpstreamOf(env, b))
      case Err(m) => Response(500, ErrorJson(m), map[AllowOrigin := "*"])
      case Ok(reply) => Response(reply.status, Relayed(reply.data), reply.headers[AllowOrigin := "*"])
  }

  /** The `fetch` handler. */
  function Handle(req: Request, env: Env, fetch: Upstream -> Result<Reply>): Response {
    Respond(Check(req, env), env, fetch)
  }

  // ---------------------------------------------------------------------------
  // The order of the checks

  /** `OPTIONS` is answered with the preflight headers whatever else the request holds. */
  lemma OptionsAlwaysPreflight(req: Request, env: Env, fetch: Upstream -> Result<Reply>)
    requires req.httpMethod == "OPTIONS"
    ensures Handle(req, env, fetch) == Response(200, NoBody, PreflightHeaders())
  {
  }

  /** Any other method but `POST` gets 405 before the path or the body is looked at. */
  lemma MethodCheckedFirst(req: Request, env: Env, fetch: Upstream -> Result<Reply>)
    requires req.httpMethod != "OPTIONS" && req.httpMethod != "POST"
    ensures Handle(req, env, fetch) == Response(405, Text("Method Not Allowed"), map[])
  {
  }

  /** A `POST` to another path gets 404 even when its body is not JSON. */
  lemma PathCheckedBeforeBody(req: Request, env: Env, fetch: Upstream -> Result<Reply>)
    requires req.httpMethod == "POST" && !EndsWith(req.path, CompletionsSuffix)
    ensures Handle(req, env, fetch).status == 404
  {
  }

  /** A body that cannot be read gets 500 with the CORS header and the error message. */
  lemma UnreadableBodyFails(req: Request, env: Env, fetch: Upstream -> Result<Reply>)
    requires req.httpMethod == "POST" && EndsWith(req.path, CompletionsSuffix) && req.body.Err?
    ensures Handle(req, env, fetch) == Response(500, ErrorJson(req.body.error), map[AllowOrigin := "*"])
  {
  }

  /** The content rule comes before the origin rule: a request without a keyword is refused
      with the content message whatever its origin and the worker's variables. */
  lemma ContentCheckedBeforeOrigin(req: Request, env: Env, fetch: Upstream -> Result<Reply>)
    requires req.httpMethod == "POST" && EndsWith(req.path, CompletionsSuffix) && req.body.Ok?
    requires !HasKeyword(LastContent(req.body.value.messages), Keywords)
    ensures Handle(req, env, fetch) == Response(403, ErrorJson(NotBusinessError), map[])
  {
  }

  /** A request is forwarded exactly when every check passes, and then its body is sent
      upstream unchanged with the worker's key. */
  lemma ForwardIff(req: Request, env: Env)
    ensures Check(req, env).Forward? <==>
      (&& req.httpMethod == "POST" && EndsWith(req.path, CompletionsSuffix) && req.body.Ok?
       && HasKeyword(LastContent(req.body.value.messages), Keywords)
       && OriginAllowed(env, req.origin))
    ensures Check(req, env).Forward? ==> Check(req, env).body == req.body.value
  {
  }

  /** Only the last message is read: earlier messages never change the verdict. */
  lemma OnlyLastMessageRead(req: Request, env: Env, earlier: seq<Message>, last: Message)
    ensures var long := req.(body := Ok(Body(Some(earlier + [last]))));
      var short := req.(body := Ok(Body(Some([last]))));
      && (Check(long, env).Forward? <==> Check(short, env).Forward?)
      && (!Check(long, env).Forward? ==> Check(long, env) == Check(short, env))
  {
    var ms := earlier + [last];
    assert ms[|ms| - 1] == last;
  }

  /** The upstream is called only for a forwarded request: otherwise the answer does not
      depend on it. */
  lemma UpstreamOnlyWhenForwarded(req: Request, env: Env, f1: Upstream -> Result<Reply>, f2: Upstream -> Result<Reply>)
    requires !Check(req, env).Forward?
    ensures Handle(req, env, f1) == Handle(req, env, f2)
  {
  }

  /** A forwarded request gets the upstream's status and body, with the CORS header added. */
  lemma ForwardRelays(req: Request, env: Env, fetch: Upstream -> Result<Reply>)
    requires Check(req, env).Forward?
    requires fetch(UpstreamOf(env, req.body.value)).Ok?
    ensures var reply := fetch(UpstreamOf(env, req.body.value)).value;
      var r := Handle(req, env, fetch);
      && r.status == reply.status && r.body == Relayed(reply.data)
      && AllowOrigin in r.headers && r.headers[AllowOrigin] == "*"
      && (forall h :: h in reply.headers && h != AllowOrigin ==> h in r.headers && r.headers[h] == reply.headers[h])
  {
  }

  /** Without `ALLOWED_EXTENSION_ID` the origin is never looked at. */
  lemma OriginIgnoredWhenUnset(req: Request, env: Env, origin: Option<string>, fetch: Upstream -> Result<Reply>)
    requires !Truthy(env.allowedExtensionId)
    ensures Handle(req, env, fetch) == Handle(req.(origin := origin), env, fetch)
  {
  }

  /** The CORS header is on the preflight, on every failure answer and on a relayed reply,
      and on none of the 405, 404 and 403 answers. */
  lemma CorsHeaderIff(req: Request, env: Env, fetch: Upstream -> Result<Reply>)
    ensures var v := Check(req, env);
      AllowOrigin in Handle(req, env, fetch).headers <==> (v.Preflight? || v.Failed? || v.Forward?)
  {
  }

  // ---------------------------------------------------------------------------
  // The extension's own prompts

  /** The request the extension's default provider sends: one user message holding the prompt,
      to the proxy's completions path. */
  function ExtensionRequest(prompt: string, origin: Option<string>): Request {
    Request("POST", CompletionsSuffix, Ok(Body(Some([Message(Some(prompt))]))), origin)
  }

  /** The path of the default provider's endpoint is the one the worker serves. */
  lemma ProxyEndpointServed(config: Llm.Config, prompt: string)
    requires config.llmProvider == Some("default") || !Truthy(config.llmProvider)
    ensures Llm.SelectBackend(config).Ok?
    ensures EndsWith(Llm.RequestOf(Llm.SelectBackend(config).value, prompt).value.url, CompletionsSuffix)
  {
    Llm.DefaultProviderUsesProxy(config, prompt);
    var url := Llm.OfficialProxy + Llm.CompletionsPath;
    assert url[|url| - |CompletionsSuffix|..] == CompletionsSuffix;
  }

  /** The Chinese introduction names the existing folders with the second keyword. */
  lemma ChineseIntroHasKeyword()
    ensures Contains(Llm.Chinese.intro, Keywords[1])
  {
    assert Llm.Chinese.intro[34..39] == Keywords[1];
    assert OccursAt(Llm.Chinese.intro, Keywords[1], 34);
  }

  /** Every prompt in a language other than English carries a keyword, so the proxy forwards
      it when no extension id is configured or the origin carries it. */
  lemma ChinesePromptForwarded(title: string, url: string, content: Llm.PageContent, folders: seq<string>,
                               allowNewFolders: bool, enableRename: bool, lang: string,
                               env: Env, origin: Option<string>)
    requires lang != "en"
    requires OriginAllowed(env, origin)
    ensures var prompt := Llm.BuildPrompt(title, url, content, folders, allowNewFolders, enableRename, lang);
      Check(ExtensionRequest(prompt, origin), env) == Forward(Body(Some([Message(Some(prompt))])))
  {
    var t := Llm.TemplateFor(lang);
    var rest := Llm.PromptBody(t, title, url, content, Llm.FoldersText(folders, lang), allowNewFolders)
      + Llm.ClosingRules(t, enableRename);
    var prompt := Llm.BuildPrompt(title, url, content, folders, allowNewFolders, enableRename, lang);
    ChineseIntroHasKeyword();
    ContainsInConcat([], t.intro, rest, Keywords[1]);
    assert [] + t.intro + rest == prompt;
    assert EndsWith(CompletionsSuffix, CompletionsSuffix);
    assert |prompt| >= |t.intro| > 0;
    assert LastContent(Some([Message(Some(prompt))])) == prompt;
    assert HasKeyword(prompt, Keywords) by {
      assert Contains(prompt, Keywords[1]);
    }
  }
}
