/** The classifier of utils/llm.js: prompt assembly, provider dispatch, the backend adapters
    and the tolerant parsing of the model's reply. Every network call goes through the
    `Backends` value, whose functions stand for `fetch` and for the offscreen document. */
module Llm {
  import opened Util
  import opened Text

  const OfficialProxy := "https://aibookmark.tenb68.workers.dev"
  const DeepSeekEndpoint := "https://api.deepseek.com/chat/completions"
  const OpenAiEndpoint := "https://api.openai.com/v1/chat/completions"
  const DoubaoEndpoint := "https://ark.cn-beijing.volces.com/api/v3/chat/completions"
  const GeminiBase := "https://generativelanguage.googleapis.com/v1beta/models/"
  const OllamaDefaultHost := "http://localhost:11434"
  const CompletionsPath := "/chat/completions"
  const DefaultLanguage := "zh_CN"
  /** The category used when a parsed JSON reply has no usable `category` field. */
  const DefaultCategory := "默认收藏"
  /** What a runtime TypeError stands for (reading a field of `undefined`). */
  const TypeErrorMessage := "TypeError"
  const BuiltInFailurePrefix := "Chrome Built-in AI 调用失败，请确保浏览器版本支持并已开启相关功能: "
  const DoubaoModelMissing := "使用豆包需要配置 Model (Endpoint ID)"
  const NoProviderMessage := "未配置有效的 LLM 提供商"

  // ---------------------------------------------------------------------------
  // Inputs

  /** The settings read from synchronised storage; an absent key is `None`. */
  datatype Config = Config(
    llmProvider: Option<string>, apiKey: Option<string>, model: Option<string>,
    ollamaHost: Option<string>, baseUrl: Option<string>, language: Option<string>)

  /** The extracted page content handed to the classifier. */
  datatype PageContent = PageContent(description: string, keywords: string, body: Option<string>)

  /** The result of a classification. */
  datatype Classification = Classification(category: string, title: string)

  // ---------------------------------------------------------------------------
  // Prompt assembly

  /** The fixed text of one prompt language, between and around the interpolated values. */
  datatype Template = Template(
    intro: string, allowLabel: string, yes: string, no: string, none: string,
    titleLabel: string, urlLabel: string, descriptionLabel: string, keywordsLabel: string,
    rules: string, renameRules: string, plainRules: string)

  const English := Template(
    "Please " + "analyze the following web page information and return a suitable bookmark folder name according to the rules.\n\nExisting folders: ",
    "\nAllow new folders: ", "Yes", "No", "None",
    "\n\nPage Info:\nTitle: ", "\nURL: ", "\nDescription: ", "\nKeywords: ",
    "\n\nRules:\n1. Prioritize choosing the best match from the \"Existing folders\" list.\n2. If no existing folder matches:\n   - If allowed to create new folders: Please return a new, short (1-3 words) English category name (e.g., Tech Docs, News).\n   - If not allowed: Forcefully choose the closest one from the existing list; if absolutely no match, return \"Default\".",
    "\n3. Also generate a simplified page title (remove irrelevant suffixes, keep core content).\n4. Must return JSON format:\n{\"category\": \"Category Name\", \"title\": \"Simplified Title\"}\nDo not include markdown blocks, just raw JSON string.",
    "\n3. Return only the folder name, no explanations or other text.")

  const Chinese := Template(
    "请分析以下网页信息，并根据规则返回一个合适的书签分类文件夹名称。\n\n现有文件夹列表：",
    "\n允许创建新文件夹：", "是", "否", "无",
    "\n\n网页信息：\n标题: ", "\nURL: ", "\n内容摘要: ", "\n关键词: ",
    "\n\n规则：\n1. 优先从“现有文件夹列表”中选择最匹配的名称。\n2. 如果现有文件夹都不匹配：\n   - 如果允许创建新文件夹：请返回一个新的、简短的（2-4字）中文分类名称（如：技术文档、新闻资讯）。\n   - 如果不允许创建新文件夹：请强制从现有列表中选一个最接近的；如果实在无法关联，返回“默认收藏”。",
    "\n3. 请同时生成一个简化的网页标题（去除无关后缀，保留核心内容）。\n4. 请务必返回 JSON 格式，格式如下：\n{\"category\": \"分类名称\", \"title\": \"简化后的标题\"}\n不要包含 markdown 代码块标记，只返回纯 JSON 字符串。",
    "\n3. 只返回文件夹名称，不要包含任何解释或其他文字。")

  /** `config.language || 'zh_CN'`. */
  function Language(config: Config): string {
    Or(config.language, DefaultLanguage)
  }

  /** Only the language `'en'` selects the English template; every other one the Chinese. */
  function TemplateFor(lang: string): Template {
    if lang == "en" then English else Chinese
  }

  /** The existing folders joined with `、`, or the template's word for "none". */
  function FoldersText(folders: seq<string>, lang: string): string {
    if |folders| > 0 then Join(folders, "、") else TemplateFor(lang).none
  }

  /** The part of the prompt between the introduction and the closing rules. */
  function PromptBody(t: Template, title: string, url: string, content: PageContent,
                      foldersText: string, allowNewFolders: bool): string
  {
    foldersText + t.allowLabel + (if allowNewFolders then t.yes else t.no)
    + t.titleLabel + title + t.urlLabel + url
    + t.descriptionLabel + content.description + t.keywordsLabel + content.keywords + t.rules
  }

  /** The closing rule: ask for JSON with a simplified title, or for the folder name alone. */
  function ClosingRules(t: Template, enableRename: bool): string {
    if enableRename then t.renameRules else t.plainRules
  }

  function BuildPrompt(title: string, url: string, content: PageContent, folders: seq<string>,
                       allowNewFolders: bool, enableRename: bool, lang: string): string
  {
    var t := TemplateFor(lang);
    t.intro + PromptBody(t, title, url, content, FoldersText(folders, lang), allowNewFolders)
    + ClosingRules(t, enableRename)
  }

  /** Every existing folder name appears in the folder text of the prompt. */
  lemma {:induction false} FoldersTextListsEveryFolder(folders: seq<string>, lang: string, k: nat)
    requires k < |folders|
    ensures Contains(FoldersText(folders, lang), folders[k])
  {
    JoinContainsPart(folders, "、", k);
  }

  lemma {:induction false} JoinContainsPart(parts: seq<string>, sep: string, k: nat)
    requires k < |parts|
    ensures Contains(Join(parts, sep), parts[k])
  {
    if |parts| == 1 {
      assert OccursAt(parts[0], parts[0], 0);
    } else if k == 0 {
      assert OccursAt(parts[0], parts[0], 0);
      ContainsInConcat([], parts[0], sep + Join(parts[1..], sep), parts[0]);
      assert [] + parts[0] + (sep + Join(parts[1..], sep)) == Join(parts, sep);
    } else {
      JoinContainsPart(parts[1..], sep, k - 1);
      ContainsInConcat(parts[0] + sep, Join(parts[1..], sep), [], parts[k]);
      assert parts[0] + sep + Join(parts[1..], sep) + [] == Join(parts, sep);
    }
  }

  /** An empty folder list is shown as `None` in English and `无` otherwise. */
  lemma EmptyFolderListWord(lang: string)
    ensures FoldersText([], lang) == (if lang == "en" then "None" else "无")
  {
  }

  /** The prompt opens with the English introduction exactly when the language is `'en'`. */
  lemma PromptLanguage(title: string, url: string, content: PageContent, folders: seq<string>,
                       allowNewFolders: bool, enableRename: bool, lang: string)
    ensures var p := BuildPrompt(title, url, content, folders, allowNewFolders, enableRename, lang);
      English.intro <= p <==> lang == "en"
  {
    var t := TemplateFor(lang);
    var body := PromptBody(t, title, url, content, FoldersText(folders, lang), allowNewFolders);
    var closing := ClosingRules(t, enableRename);
    var rest := body + closing;
    ConcatAssoc(t.intro, body, closing);
    if lang == "en" {
      PrefixOfConcat(English.intro, rest);
    } else {
      IntroductionsDiffer();
      NotPrefixByFirstChar(English.intro, Chinese.intro, rest);
    }
  }

  lemma PrefixOfConcat(a: string, rest: string)
    ensures a <= a + rest
  {
    assert (a + rest)[..|a|] == a;
  }

  /** A string cannot open a text whose first character differs from its own. */
  lemma NotPrefixByFirstChar(a: string, b: string, rest: string)
    requires |a| > 0 && |b| > 0 && a[0] != b[0]
    ensures !(a <= b + rest)
  {
    assert (b + rest)[0] == b[0];
  }

  lemma IntroductionsDiffer()
    ensures |English.intro| > 0 && |Chinese.intro| > 0
    ensures Chinese.intro[0] != English.intro[0]
  {
    assert Chinese.intro[0] == '请';
    assert English.intro[0] == 'P';
  }

  /** The JSON-format rules close the prompt exactly when renaming is enabled; otherwise the
      "folder name only" rule does. */
  lemma PromptRenameRules(title: string, url: string, content: PageContent, folders: seq<string>,
                          allowNewFolders: bool, enableRename: bool, lang: string)
    ensures var p := BuildPrompt(title, url, content, folders, allowNewFolders, enableRename, lang);
      && (EndsWith(p, TemplateFor(lang).renameRules) <==> enableRename)
      && (EndsWith(p, TemplateFor(lang).plainRules) <==> !enableRename)
  {
    var t := TemplateFor(lang);
    var head := t.intro + PromptBody(t, title, url, content, FoldersText(folders, lang), allowNewFolders);
    assert BuildPrompt(title, url, content, folders, allowNewFolders, enableRename, lang)
      == head + ClosingRules(t, enableRename);
    ClosingRulesDiffer(t);
    EndsWithOneOf(head, t.renameRules, t.plainRules, enableRename);
  }

  /** A text closed by one of two endings that differ in their second-to-last character ends
      with that ending and not the other. */
  lemma EndsWithOneOf(head: string, yes: string, no: string, pick: bool)
    requires |yes| >= 2 && |no| >= 2 && yes[|yes| - 2] != no[|no| - 2]
    ensures var p := head + (if pick then yes else no);
      && (EndsWith(p, yes) <==> pick)
      && (EndsWith(p, no) <==> !pick)
  {
    var tail := if pick then yes else no;
    var p := head + tail;
    assert p[|p| - |tail|..] == tail;
    assert p[|p| - 2] == tail[|tail| - 2];
    if EndsWith(p, yes) {
      assert p[|p| - 2] == yes[|yes| - 2];
    }
    if EndsWith(p, no) {
      assert p[|p| - 2] == no[|no| - 2];
    }
  }

  /** The two closing rules of a template differ in their second-to-last character. */
  lemma ClosingRulesDiffer(t: Template)
    requires t == English || t == Chinese
    ensures |t.renameRules| >= 2 && |t.plainRules| >= 2
    ensures t.renameRules[|t.renameRules| - 2] != t.plainRules[|t.plainRules| - 2]
  {
  }

  // ---------------------------------------------------------------------------
  // Backends

  datatype Api = ChatCompletions | GeminiGenerate | OllamaGenerate

  /** One HTTP POST: the endpoint, the bearer credential if any, the model and the prompt. */
  datatype HttpRequest = HttpRequest(api: Api, url: string, authorization: Option<string>,
                                     model: string, prompt: string)

  datatype ChatChoice = ChatChoice(content: Option<string>)
  datatype GeminiPart = GeminiPart(text: Option<string>)
  datatype GeminiContent = GeminiContent(parts: Option<seq<GeminiPart>>)
  datatype GeminiCandidate = GeminiCandidate(content: Option<GeminiContent>)

  /** The fields of a JSON reply body that the adapters read. */
  datatype Envelope = Envelope(choices: Option<seq<ChatChoice>>,
                               candidates: Option<seq<GeminiCandidate>>,
                               response: Option<string>)

  /** An HTTP reply: `body` is `None` when `response.json()` throws. */
  datatype HttpReply = HttpReply(ok: bool, status: nat, errorText: string, body: Option<Envelope>)

  /** The offscreen document's reply to a `PROMPT_AI` message. */
  datatype AiReply = AiReply(error: Option<string>, result: Option<string>)

  /** The outside world the classifier talks to. `offscreen` returns `Err` when creating the
      offscreen document or sending the message throws, and `Ok(None)` for an empty reply. */
  datatype Backends = Backends(fetch: HttpRequest -> HttpReply,
                               offscreen: string -> Result<Option<AiReply>>)

  /** Appends `/chat/completions` unless the endpoint already ends that way; a trailing `/`
      is reused rather than doubled. */
  function NormalizeEndpoint(endpoint: string): (r: string)
    ensures EndsWith(r, CompletionsPath)
    ensures EndsWith(endpoint, CompletionsPath) ==> r == endpoint
    ensures endpoint <= r
  {
    if EndsWith(endpoint, CompletionsPath) then endpoint
    else if EndsWith(endpoint, "/") then endpoint + CompletionsPath[1..]
    else endpoint + CompletionsPath
  }

  /** Normalising an already normalised endpoint changes nothing. */
  lemma NormalizeIdempotent(endpoint: string)
    ensures NormalizeEndpoint(NormalizeEndpoint(endpoint)) == NormalizeEndpoint(endpoint)
  {
  }

  /** What is appended: nothing, `chat/completions` after a slash, or the whole path. */
  lemma NormalizeAppends(endpoint: string)
    ensures !EndsWith(endpoint, CompletionsPath) && EndsWith(endpoint, "/") ==>
      NormalizeEndpoint(endpoint) == endpoint + "chat/completions"
    ensures !EndsWith(endpoint, CompletionsPath) && !EndsWith(endpoint, "/") ==>
      NormalizeEndpoint(endpoint) == endpoint + "/chat/completions"
  {
  }

  /** The reply body holds `choices[0].message.content`. */
  predicate HasChatContent(body: Option<Envelope>) {
    body.Some? && body.value.choices.Some? && |body.value.choices.value| > 0
    && body.value.choices.value[0].content.Some?
  }

  /** `data.choices[0].message.content.trim()` after an `ok` check; a failed status becomes an
      error naming the API, the status and the reply text, and a missing field a TypeError. */
  function ChatText(reply: HttpReply, api: string): (r: Result<string>)
    ensures r.Ok? <==> reply.ok && HasChatContent(reply.body)
    ensures r.Ok? ==> r.value == Trim(reply.body.value.choices.value[0].content.value)
    ensures !reply.ok ==> api + " API Error: " <= r.error
  {
    if !reply.ok then Err(api + " API Error: " + Decimal(reply.status) + " " + reply.errorText)
    else if HasChatContent(reply.body) then Ok(Trim(reply.body.value.choices.value[0].content.value))
    else Err(TypeErrorMessage)
  }

  /** `callDeepSeek` and `callChatGPT` share one shape: a falsy base URL means the official one. */
  function ChatRequest(prompt: string, apiKey: Option<string>, model: Option<string>,
                       baseUrl: Option<string>, defaultModel: string, defaultUrl: string): HttpRequest
  {
    HttpRequest(ChatCompletions, NormalizeEndpoint(Or(baseUrl, defaultUrl)),
                Some("Bearer " + Show(apiKey)), Or(model, defaultModel), prompt)
  }

  function CallDeepSeek(prompt: string, apiKey: Option<string>, model: Option<string>,
                        baseUrl: Option<string>, net: Backends): Result<string>
  {
    ChatText(net.fetch(ChatRequest(prompt, apiKey, model, baseUrl, "deepseek-chat", DeepSeekEndpoint)), "DeepSeek")
  }

  function CallChatGpt(prompt: string, apiKey: Option<string>, model: Option<string>,
                       baseUrl: Option<string>, net: Backends): Result<string>
  {
    ChatText(net.fetch(ChatRequest(prompt, apiKey, model, baseUrl, "gpt-4o-mini", OpenAiEndpoint)), "ChatGPT")
  }

  /** The Gemini envelope is checked down to `candidates[0].content.parts[0]`. */
  function GeminiText(reply: HttpReply): (r: Result<string>)
    ensures r.Ok? ==> (reply.ok && reply.body.Some? && reply.body.value.candidates.Some?
      && |reply.body.value.candidates.value| > 0
      && reply.body.value.candidates.value[0].content.Some?
      && reply.body.value.candidates.value[0].content.value.parts.Some?
      && |reply.body.value.candidates.value[0].content.value.parts.value| > 0)
    ensures !reply.ok ==> "Gemini API Error: " <= r.error
  {
    if !reply.ok then Err("Gemini API Error: " + Decimal(reply.status) + " " + reply.errorText)
    else if reply.body.None? then Err(TypeErrorMessage)
    else
      var cs := reply.body.value.candidates;
      if cs.Some? && |cs.value| > 0 && cs.value[0].content.Some?
         && cs.value[0].content.value.parts.Some? && |cs.value[0].content.value.parts.value| > 0
      then
        var part := cs.value[0].content.value.parts.value[0];
        if part.text.Some? then Ok(Trim(part.text.value)) else Err(TypeErrorMessage)
      else Err("Gemini API returned unexpected format")
  }

  function GeminiRequest(prompt: string, apiKey: Option<string>, model: Option<string>): HttpRequest {
    var modelName := Or(model, "gemini-1.5-flash");
    HttpRequest(GeminiGenerate, GeminiBase + modelName + ":generateContent?key=" + Show(apiKey),
                None, modelName, prompt)
  }

  function CallGemini(prompt: string, apiKey: Option<string>, model: Option<string>, net: Backends): Result<string> {
    GeminiText(net.fetch(GeminiRequest(prompt, apiKey, model)))
  }

  /** Doubao refuses to run without a model (an endpoint id) before any request is made. */
  function CallDoubao(prompt: string, apiKey: Option<string>, model: Option<string>, net: Backends): Result<string> {
    if !Truthy(model) then Err(DoubaoModelMissing)
    else ChatText(net.fetch(HttpRequest(ChatCompletions, DoubaoEndpoint, Some("Bearer " + Show(apiKey)),
                                        model.value, prompt)), "Doubao")
  }

  function OllamaRequest(prompt: string, model: Option<string>, host: Option<string>): HttpRequest {
    HttpRequest(OllamaGenerate, Or(host, OllamaDefaultHost) + "/api/generate", None, Or(model, "llama3"), prompt)
  }

  function CallOllama(prompt: string, model: Option<string>, host: Option<string>, net: Backends): Result<string> {
    var reply := net.fetch(OllamaRequest(prompt, model, host));
    if !reply.ok then Err("Ollama Error: " + Decimal(reply.status))
    else if reply.body.None? || reply.body.value.response.None? then Err(TypeErrorMessage)
    else Ok(Trim(reply.body.value.response.value))
  }

  /** Every failure of the built-in model, including the reply's own error, is re-wrapped
      behind one prefix. */
  function CallChromeBuiltIn(prompt: string, net: Backends): (r: Result<string>)
    ensures r.Err? ==> BuiltInFailurePrefix <= r.error
  {
    match net.offscreen(prompt)
    case Err(e) => Err(BuiltInFailurePrefix + e)
    case Ok(None) => Err(BuiltInFailurePrefix + "Unknown error from Chrome AI")
    case Ok(Some(reply)) =>
      if Truthy(reply.error) then Err(BuiltInFailurePrefix + reply.error.value)
      else if Truthy(reply.result) then Ok(Trim(reply.result.value))
      else Err(BuiltInFailurePrefix + "Unknown error from Chrome AI")
  }

  /** A backend together with the arguments the dispatch passes to it. */
  datatype Backend =
    | DeepSeek(apiKey: Option<string>, model: Option<string>, baseUrl: Option<string>)
    | ChatGpt(apiKey: Option<string>, model: Option<string>, baseUrl: Option<string>)
    | Gemini(apiKey: Option<string>, model: Option<string>)
    | ChromeBuiltIn
    | Ollama(model: Option<string>, host: Option<string>)
    | Doubao(apiKey: Option<string>, model: Option<string>)

  /** Provider selection by `llmProvider`. */
  function SelectBackend(config: Config): (r: Result<Backend>)
    ensures r.Err? <==> (Truthy(config.llmProvider) && config.llmProvider.value !in
      {"default", "deepseek", "chatgpt", "gemini", "chrome_builtin", "ollama", "doubao"})
  {
    var p := config.llmProvider;
    if p == Some("default") then Ok(DeepSeek(Some(""), config.model, Some(OfficialProxy)))
    else if p == Some("deepseek") then Ok(DeepSeek(config.apiKey, config.model, None))
    else if p == Some("chatgpt") then Ok(ChatGpt(config.apiKey, config.model, config.baseUrl))
    else if p == Some("gemini") then Ok(Gemini(config.apiKey, config.model))
    else if p == Some("chrome_builtin") then Ok(ChromeBuiltIn)
    else if p == Some("ollama") then Ok(Ollama(config.model, config.ollamaHost))
    else if p == Some("doubao") then Ok(Doubao(config.apiKey, config.model))
    else if !Truthy(p) then Ok(DeepSeek(Some(""), config.model, Some(OfficialProxy)))
    else Err(NoProviderMessage)
  }

  function Invoke(backend: Backend, prompt: string, net: Backends): Result<string> {
    match backend
    case DeepSeek(key, model, base) => CallDeepSeek(prompt, key, model, base, net)
    case ChatGpt(key, model, base) => CallChatGpt(prompt, key, model, base, net)
    case Gemini(key, model) => CallGemini(prompt, key, model, net)
    case ChromeBuiltIn => CallChromeBuiltIn(prompt, net)
    case Ollama(model, host) => CallOllama(prompt, model, host, net)
    case Doubao(key, model) => CallDoubao(prompt, key, model, net)
  }

  /** The request a chat-completions backend sends, if it sends one. */
  function RequestOf(backend: Backend, prompt: string): Option<HttpRequest> {
    match backend
    case DeepSeek(key, model, base) => Some(ChatRequest(prompt, key, model, base, "deepseek-chat", DeepSeekEndpoint))
    case ChatGpt(key, model, base) => Some(ChatRequest(prompt, key, model, base, "gpt-4o-mini", OpenAiEndpoint))
    case Gemini(key, model) => Some(GeminiRequest(prompt, key, model))
    case ChromeBuiltIn => None
    case Ollama(model, host) => Some(OllamaRequest(prompt, model, host))
    case Doubao(key, model) =>
      if Truthy(model) then Some(HttpRequest(ChatCompletions, DoubaoEndpoint, Some("Bearer " + Show(key)), model.value, prompt))
      else None
  }

  /** `'default'` and an absent provider go to the official proxy with an empty key. */
  lemma DefaultProviderUsesProxy(config: Config, prompt: string)
    requires config.llmProvider == Some("default") || !Truthy(config.llmProvider)
    ensures SelectBackend(config).Ok?
    ensures var req := RequestOf(SelectBackend(config).value, prompt).value;
      req.url == OfficialProxy + CompletionsPath && req.authorization == Some("Bearer ")
  {
    assert SelectBackend(config) == Ok(DeepSeek(Some(""), config.model, Some(OfficialProxy)));
    assert "Bearer " + Show(Some("")) == "Bearer ";
    ProxyEndpoint();
  }

  lemma ProxyEndpoint()
    ensures NormalizeEndpoint(OfficialProxy) == OfficialProxy + CompletionsPath
  {
    assert OfficialProxy[|OfficialProxy| - 1] == 'v';
    assert !EndsWith(OfficialProxy, CompletionsPath);
    assert !EndsWith(OfficialProxy, "/");
  }

  /** `'deepseek'` ignores any stored base URL and always calls the official DeepSeek host. */
  lemma DeepSeekIgnoresBaseUrl(config: Config, prompt: string)
    requires config.llmProvider == Some("deepseek")
    ensures RequestOf(SelectBackend(config).value, prompt).value.url == DeepSeekEndpoint
  {
  }

  /** Every chat-completions request goes to an endpoint ending in `/chat/completions`. */
  lemma ChatRequestsEndInCompletions(config: Config, prompt: string)
    requires SelectBackend(config).Ok?
    requires RequestOf(SelectBackend(config).value, prompt).Some?
    requires RequestOf(SelectBackend(config).value, prompt).value.api == ChatCompletions
    ensures EndsWith(RequestOf(SelectBackend(config).value, prompt).value.url, CompletionsPath)
  {
  }

  /** Doubao without a model fails the same way whatever the network would have answered:
      no request is made. */
  lemma DoubaoNeedsModel(prompt: string, apiKey: Option<string>, model: Option<string>, net1: Backends, net2: Backends)
    requires !Truthy(model)
    ensures CallDoubao(prompt, apiKey, model, net1) == CallDoubao(prompt, apiKey, model, net2) == Err(DoubaoModelMissing)
  {
  }

  /** Each backend's result is what its adapter makes of the reply to the request it sends. */
  lemma InvokeUsesRequest(backend: Backend, prompt: string, net: Backends)
    requires RequestOf(backend, prompt).Some?
    requires backend.DeepSeek? || backend.ChatGpt? || backend.Doubao?
    ensures var reply := net.fetch(RequestOf(backend, prompt).value);
      Invoke(backend, prompt, net) == ChatText(reply, if backend.DeepSeek? then "DeepSeek" else if backend.ChatGpt? then "ChatGPT" else "Doubao")
  {
  }

  // ---------------------------------------------------------------------------
  // Response parsing

  /** The fields of a parsed JSON object that the parser reads. */
  datatype JsonObject = JsonObject(category: Option<string>, title: Option<string>)

  function FirstIndex(s: string, c: char): (r: Option<nat>)
    ensures r.None? <==> c !in s
    ensures r.Some? ==> r.value < |s| && s[r.value] == c && c !in s[..r.value]
  {
    if s == [] then None
    else if s[0] == c then Some(0)
    else match FirstIndex(s[1..], c)
      case None => None
      case Some(i) => assert s[..i + 1] == [s[0]] + s[1..][..i]; Some(i + 1)
  }

  function LastIndex(s: string, c: char): (r: Option<nat>)
    ensures r.None? <==> c !in s
    ensures r.Some? ==> r.value < |s| && s[r.value] == c && c !in s[r.value + 1..]
  {
    if s == [] then None
    else if s[|s| - 1] == c then Some(|s| - 1)
    else
      var p := s[..|s| - 1];
      assert s == p + [s[|s| - 1]];
      match LastIndex(p, c)
      case None => None
      case Some(i) => assert s[i + 1..] == p[i + 1..] + [s[|s| - 1]]; Some(i)
  }

  /** The match of `/\{[\s\S]*\}/`: from the first `{` to the last `}` after it, greedily,
      with no attempt to balance braces. */
  function JsonCandidate(s: string): (r: Option<string>)
    ensures r.Some? <==> exists i, j :: 0 <= i < j < |s| && s[i] == '{' && s[j] == '}'
    ensures r.Some? ==> exists k :: (OccursAt(s, r.value, k) && '{' !in s[..k]
      && '}' !in s[k + |r.value|..] && r.value[0] == '{' && r.value[|r.value| - 1] == '}')
  {
    match (FirstIndex(s, '{'), LastIndex(s, '}'))
    case (Some(f), Some(l)) =>
      if f < l then
        assert OccursAt(s, s[f..l + 1], f);
        Some(s[f..l + 1])
      else
        NoBraceBefore(s, f, l);
        None
    case (None, _) => None
    case (_, None) => None
  }

  lemma NoBraceBefore(s: string, f: nat, l: nat)
    requires f < |s| && l < |s| && '{' !in s[..f] && '}' !in s[l + 1..] && l <= f
    ensures !exists i, j :: 0 <= i < j < |s| && s[i] == '{' && s[j] == '}'
  {
    forall i, j | 0 <= i < j < |s| && s[i] == '{' ensures s[j] != '}' {
      assert s[l + 1..][j - l - 1] == s[j];
    }
  }

  /** The characters the fallback strips: straight quotes and the ideographic full stop. */
  const StrippedChars: set<char> := {'"', '\'', '。'}

  /** The fallback: the whole reply with every `"`, `'` and `。` removed, then trimmed. */
  function StripReply(text: string): (r: string)
    ensures forall i :: 0 <= i < |r| ==> r[i] !in StrippedChars
    ensures r == [] || (!IsSpace(r[0]) && !IsSpace(r[|r| - 1]))
    ensures exists k :: TrimmedAt(RemoveChars(text, StrippedChars), r, k)
  {
    TrimKeepsOut(RemoveChars(text, StrippedChars), StrippedChars);
    Trim(RemoveChars(text, StrippedChars))
  }

  /** Trimming adds no character, so characters absent before are absent after. */
  lemma TrimKeepsOut(s: string, bad: set<char>)
    requires forall i :: 0 <= i < |s| ==> s[i] !in bad
    ensures forall i :: 0 <= i < |Trim(s)| ==> Trim(s)[i] !in bad
  {
    var k :| TrimmedAt(s, Trim(s), k);
    InsideKeepsOut(s, Trim(s), k, bad);
  }

  lemma InsideKeepsOut(s: string, r: string, k: int, bad: set<char>)
    requires TrimmedAt(s, r, k)
    requires forall i :: 0 <= i < |s| ==> s[i] !in bad
    ensures forall i :: 0 <= i < |r| ==> r[i] !in bad
  {
    forall i | 0 <= i < |r| ensures r[i] !in bad {
      assert r[i] == s[k..k + |r|][i] == s[k + i];
    }
  }

  function ParseResponse(text: string, title: string, enableRename: bool,
                         parse: string -> Option<JsonObject>): (c: Classification)
    ensures !enableRename ==> c.title == title
    ensures JsonCandidate(text).None? ==> c == Classification(StripReply(text), title)
    ensures JsonCandidate(text).Some? && parse(JsonCandidate(text).value).None? ==>
      c == Classification(StripReply(text), title)
    ensures JsonCandidate(text).Some? && parse(JsonCandidate(text).value).Some? ==>
      var obj := parse(JsonCandidate(text).value).value;
      && c.category == Or(obj.category, DefaultCategory)
      && (enableRename ==> c.title == Or(obj.title, title))
  {
    var parsed: (string, string) :=
      match JsonCandidate(text)
      case None => (StripReply(text), title)
      case Some(span) =>
        match parse(span)
        case None => (StripReply(text), title)
        case Some(obj) => (Or(obj.category, DefaultCategory), Or(obj.title, title));
    Classification(parsed.0, if enableRename then parsed.1 else title)
  }

  /** `classifyWithLLM`: builds the prompt, calls the selected backend and parses its reply;
      an unknown provider or a failing backend is an error. */
  function ClassifyWithLlm(title: string, url: string, content: PageContent, folders: seq<string>,
                           allowNewFolders: bool, enableRename: bool, config: Config,
                           net: Backends, parse: string -> Option<JsonObject>): (r: Result<Classification>)
    ensures r.Ok? && !enableRename ==> r.value.title == title
    ensures SelectBackend(config).Err? ==> r == Err(SelectBackend(config).error)
    ensures SelectBackend(config).Ok? ==>
      var reply := Invoke(SelectBackend(config).value,
        BuildPrompt(title, url, content, folders, allowNewFolders, enableRename, Language(config)), net);
      && (reply.Err? ==> r == Err(reply.error))
      && (reply.Ok? ==> r == Ok(ParseResponse(reply.value, title, enableRename, parse)))
  {
    var prompt := BuildPrompt(title, url, content, folders, allowNewFolders, enableRename, Language(config));
    match SelectBackend(config)
    case Err(e) => Err(e)
    case Ok(backend) =>
      match Invoke(backend, prompt, net)
      case Err(e) => Err(e)
      case Ok(text) => Ok(ParseResponse(text, title, enableRename, parse))
  }

  /** Rename gate: with renaming off the title comes back unchanged whatever the model replied. */
  lemma RenameGate(text: string, title: string, parse: string -> Option<JsonObject>)
    ensures ParseResponse(text, title, false, parse).title == title
  {
  }

  /** Outside white space, the fallback keeps every character other than quotes and `。`
      exactly as often as the reply has it; in particular ASCII `.` survives. */
  lemma StripKeepsOtherChars(text: string, c: char)
    requires c !in StrippedChars && !IsSpace(c)
    ensures multiset(StripReply(text))[c] == multiset(text)[c]
  {
    TrimKeepsNonSpace(RemoveChars(text, StrippedChars), c);
  }

  /** The fallback category is empty exactly when the reply holds nothing but quotes, `。`
      and white space. */
  lemma StripEmpty(text: string)
    ensures StripReply(text) == [] <==> AllSpace(RemoveChars(text, StrippedChars))
  {
  }
}
