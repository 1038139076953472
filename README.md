# AI Bookmark Organizer — a verified model of its core

AI Bookmark Organizer is a Chrome extension. It files the page the user bookmarks into a
folder of the bookmarks bar, chosen by a language model. This project models the logic of
that extension in Dafny and proves properties of the model:

- **Llm** (`utils/llm.js`): how the prompt is put together, which provider is chosen,
  endpoint normalisation, the backend adapters, and the tolerant parsing of the model's
  reply, including the rename gate. Every network call goes through a function-typed
  parameter, and so does `JSON.parse`.
- **Bookmarks** (`utils/bookmark.js`): the browser's bookmark store is a class over a list
  of nodes. It also holds `getExistingFolderNames`, `createOrGetFolder` (find or create a
  folder in the bar) and `moveBookmark`.
- **Background** (`background.js`): the manual pipeline (extract, classify, place, toast,
  history, reply) and the automatic pipeline run for natively created bookmarks. It keeps
  the set of urls whose creation event the worker caused itself and skips each of them once.
  The functions over a `World` value say what one event does. The methods of the
  `ServiceWorker` class perform the same steps on mutable state, and each is proved to leave
  exactly that world.
- **History** (`utils/history.js`): the bounded history list, newest entry first.
- **I18n** (`utils/i18n.js`) and the content script's own lookup (`content.js`): `$NAME$`
  substitution and message lookup.
- **Popup** (`popup/popup.js`): HTML escaping and the ten-entry preview.
- **Options** (`options/options.js`): saving and restoring the folder policy, the
  disabled-domain list, the page title and the fields shown for each provider.
- **Content** (`content.js`): the floating button's guards, drag handling, the click, the
  bookmark request and its reply, disabling a domain, and reacting to setting changes.
- **Manager** (`manager/main.js`): the command-line style tree, the folder picker, the
  search filter and the save decision of the edit dialog.
- **Worker** (`archive/deploy/cloudflare-worker/worker.js`): the validation chain of the
  proxy that the default provider calls. Its preflight answer follows the CORS protocol
  (section 3.2 of the WHATWG Fetch Standard).
- **Util** and **Text**: JavaScript's truthiness, `||`, template rendering, `trim`, white
  space, `includes`, `endsWith`, ASCII `toLowerCase` and `join`.

The browser, the network, storage and the clock are parameters of the model:

- `chrome.bookmarks` is the `BookmarkStore` class.
- Storage reads are `Env` fields or method arguments.
- `fetch` and the offscreen document are the `Llm.Backends` functions.
- Script injection is `Env.pages`.
- `Date.now()` is the two clock readings a history entry takes.

Where the documented behaviour of the extension and its code disagree, the model follows the code:

- The fallback category keeps an ASCII `.`. Only `"`, `'` and `。` are stripped.
- There is no retry, timeout or in-flight lock around model calls.
- The proxy's preflight answer has status 200. That is the `Response` default, not 204.

## Model

| member | source | states |
|---|---|---|
| Util.Or | utils/llm.js:5 | `v \|\| d` on an optional string: the value when it is truthy, otherwise the default |
| Util.Decimal | utils/history.js:6 | the decimal spelling of a clock reading is a non-empty digit string |
| Util.DecimalRoundTrip | utils/history.js:6 | reading the decimal spelling back gives the clock reading |
| Util.DecimalInjective | utils/history.js:6 | distinct clock readings give distinct history ids |
| Text.Trim | utils/llm.js:123 | `trim` removes exactly the white space before the first and after the last other character: the result is the part of the input between a white-space prefix and a white-space suffix, it neither starts nor ends with white space, and it is empty exactly when the input is all white space |
| Text.TrimKeepsNonSpace | utils/llm.js:123 | `trim` keeps every non-space character as often as the input has it |
| Text.RemoveChars | utils/llm.js:123 | `replace(/["'。]/g, '')` leaves none of the removed characters and keeps each other character's count |
| Text.RemoveCharsConcat | utils/llm.js:123 | removal goes character by character: one kept character stays, one removed character goes, and a concatenation's result is the concatenation of the results, so the kept characters stay in order |
| Text.CollapseSpaces | background.js:221 | `replace(/\s+/g, ' ')` keeps every other character, in order; white space survives only as single spaces, never two in a row, and the result is empty only for an empty input |
| Text.CollapseConcat | background.js:221 | cut anywhere outside a white-space run, the collapse of a text is the collapse of its two pieces put together |
| Text.CollapseRun | background.js:221 | a non-empty run of white space collapses to exactly one space |
| Text.Digest | background.js:221 | the page-text digest is at most the limit long, keeps every other character of the first `limit` characters in order, and has no white space after a space |
| Text.Lower | manager/main.js:255 | ASCII lower-casing maps each character on its own and keeps the length |
| Text.Join | utils/llm.js:7 | `join` of no parts is empty and of one part is that part |
| Text.JoinAppend | utils/llm.js:7 | each further part comes after one more separator |
| Llm.FoldersTextListsEveryFolder | utils/llm.js:7 | every existing folder name occurs in the folder text of the prompt |
| Llm.EmptyFolderListWord | utils/llm.js:7 | an empty folder list is written `None` in English and `无` in every other language |
| Llm.PromptLanguage | utils/llm.js:11-42 | the prompt opens with the English introduction exactly when the language is `en` |
| Llm.PromptRenameRules | utils/llm.js:29-68 | the prompt ends with the JSON-format rules exactly when renaming is enabled, and otherwise with the folder-name-only rule |
| Llm.NormalizeEndpoint | utils/llm.js:144-146 | the endpoint ends in `/chat/completions`, extends the input, and is unchanged when it already ended that way |
| Llm.NormalizeIdempotent | utils/llm.js:144-146 | normalising twice is normalising once |
| Llm.NormalizeAppends | utils/llm.js:144-146 | after a trailing `/` only `chat/completions` is appended, otherwise `/chat/completions` |
| Llm.ChatText | utils/llm.js:163-169 | the adapter succeeds exactly when the reply is ok and holds `choices[0].message.content`, and returns it trimmed; a failed status gives an error naming the API |
| Llm.GeminiText | utils/llm.js:216-227 | Gemini succeeds only when the reply is ok and `candidates[0].content.parts[0]` exists; a failed status gives an error naming the API |
| Llm.CallChromeBuiltIn | utils/llm.js:308-331 | every failure of the built-in model carries the fixed prefix |
| Llm.SelectBackend | utils/llm.js:76-100 | selection fails exactly for a truthy provider outside the seven known names |
| Llm.DefaultProviderUsesProxy | utils/llm.js:76-96 | `default` and an absent provider call the official proxy at `/chat/completions` with an empty bearer key |
| Llm.DeepSeekIgnoresBaseUrl | utils/llm.js:79-81 | `deepseek` always calls the official DeepSeek endpoint, whatever base URL is stored |
| Llm.ChatRequestsEndInCompletions | utils/llm.js:138-178 | every chat-completions request goes to an endpoint ending in `/chat/completions` |
| Llm.DoubaoNeedsModel | utils/llm.js:230-233 | Doubao without a model fails with its own message and makes no request |
| Llm.InvokeUsesRequest | utils/llm.js:150-169 | a chat backend's result is its adapter applied to the reply to exactly the request it builds |
| Llm.JsonCandidate | utils/llm.js:115-117 | a candidate exists exactly when some `{` precedes some `}`; it starts at the first `{` and ends at the last `}` |
| Llm.StripReply | utils/llm.js:122-127 | the fallback category is the reply with the quotes and `。` removed (in order, by Text.RemoveCharsConcat) and then only a white-space prefix and suffix cut off; it has no quote or `。` and does not start or end with white space |
| Llm.StripKeepsOtherChars | utils/llm.js:123 | the fallback keeps every other non-space character (ASCII `.` included) as often as the reply has it |
| Llm.StripEmpty | utils/llm.js:123 | the fallback category is empty exactly when the reply is only quotes, `。` and white space |
| Llm.ParseResponse | utils/llm.js:108-133 | a parsed candidate gives its truthy `category` (else `默认收藏`) and, with renaming on, its truthy `title`; no candidate or a parse failure gives the stripped reply; with renaming off the title is the input title |
| Llm.RenameGate | utils/llm.js:130-133 | with renaming off the returned title is the input title, whatever the reply |
| Llm.ClassifyWithLlm | utils/llm.js:3-136 | an unknown provider is its error; otherwise the selected backend is called with the built prompt, a failing call is its error, and a reply is classified exactly as `ParseResponse` parses it; with renaming off the title is kept |
| History.MakeEntry | utils/history.js:5-12 | the entry copies title, url and category, has a digit-string id that reads back as the clock, and a falsy status becomes `success` |
| History.Window | utils/history.js:17-20 | truncation keeps the first 100 entries of a longer list and leaves a shorter list alone |
| History.Prepend | utils/history.js:14-20 | the new entry is first, the old entries follow in order, and the length is `min(old + 1, 100)` |
| History.PrependAllWindow | utils/history.js:14-20 | any run of additions leaves the newest 100 entries of all, newest first |
| History.KeepsNewest | utils/history.js:14-20 | from an empty history, the list holds the last `min(n, 100)` entries recorded, newest first |
| History.HistoryLog.constructor | utils/history.js:3 | an absent list reads as empty |
| History.HistoryLog.AddHistoryItem | utils/history.js:2-23 | the stored list becomes the prepended and truncated list, and stays bounded |
| History.HistoryLog.GetHistoryItems | utils/history.js:25-28 | returns the stored list |
| History.HistoryLog.ClearHistory | utils/history.js:30-32 | the stored list is empty |
| Bookmarks.GetExistingFolderNames | utils/bookmark.js:1-15 | without a bookmarks bar the list is empty |
| Bookmarks.FolderTitlesExactly | utils/bookmark.js:10-12 | a name is listed exactly when a url-less child of the parent has that title |
| Bookmarks.ExistingFolderNamesExactly | utils/bookmark.js:10-12 | a name is listed exactly when a url-less direct child of node 1 carries it |
| Bookmarks.FolderTitlesConcat | utils/bookmark.js:10-12 | the list is built node by node, a url-less child giving its title and any other node nothing, so there is one entry per such child, in child order |
| Bookmarks.FindFolder | utils/bookmark.js:22-24 | finds the first url-less child of the bar whose title equals the name exactly; a bookmark with that title never matches |
| Bookmarks.CreateIn | utils/bookmark.js:31-34 | creation succeeds exactly under an existing folder and appends one node with a fresh id |
| Bookmarks.Moved | utils/bookmark.js:40 | a moved node becomes the last node with its new parent, and the others keep their order |
| Bookmarks.MoveIn | utils/bookmark.js:40 | a move fails exactly when the browser refuses it, and otherwise changes only the node's parent and place |
| Bookmarks.UpdateIn | background.js:119 | a missing id or a permanent folder is refused, and so is a non-empty url for a folder; it succeeds exactly otherwise, and the node gets the new title in place, plus the url when a non-empty one is given (an empty url leaves the url as it was) |
| Bookmarks.CreateWellFormed | utils/bookmark.js:31-34 | creation keeps ids distinct and in range |
| Bookmarks.MoveWellFormed | utils/bookmark.js:40 | a move keeps ids distinct and in range |
| Bookmarks.UpdateWellFormed | background.js:119 | an update keeps ids distinct and in range |
| Bookmarks.MoveChangesOnlyParent | utils/bookmark.js:39-41 | the moved node keeps id, title and url, and the multiset of nodes differs only in that node's parent |
| Bookmarks.SearchUrl | background.js:252 | the search returns exactly the nodes with that url |
| Bookmarks.FirstWithUrl | background.js:251-254 | a bookmark is found exactly when some node has the url, and it is one of them |
| Bookmarks.ResolveFolder | utils/bookmark.js:17-37 | a missing bar throws; an existing folder is returned with nothing created; otherwise exactly one folder is appended to the bar and its id returned |
| Bookmarks.ResolvedFolderFound | utils/bookmark.js:17-37 | afterwards the name finds a folder, and it is the one returned |
| Bookmarks.ResolveFolderIdempotent | utils/bookmark.js:17-37 | a second call with the same name returns the same id and adds no node |
| Bookmarks.ResolveFolderWellFormed | utils/bookmark.js:17-37 | resolution keeps the store well formed |
| Bookmarks.BookmarkStore.Create | utils/bookmark.js:31-34 | the store and the result are exactly those of the creation rule |
| Bookmarks.BookmarkStore.Move | utils/bookmark.js:40 | the store and the result are exactly those of the move rule |
| Bookmarks.BookmarkStore.Update | background.js:119 | the store and the result are exactly those of the update rule, including its refusals and the empty url left unapplied |
| Bookmarks.BookmarkStore.Search | background.js:252 | returns the nodes with the url |
| Bookmarks.CreateOrGetFolder | utils/bookmark.js:17-37 | the store and the returned id are exactly those of the resolution |
| Bookmarks.MoveBookmark | utils/bookmark.js:39-41 | the store is exactly the one after the move |
| Background.OrElse | background.js:125 | `newTitle \|\| title` |
| Background.ExtractPageContentFromTab | background.js:214-233 | a failed injection gives empty content; otherwise the meta description and keywords (empty when missing) and the digest of the page text cut to 500 characters |
| Background.ExtractOnlyFromSamePage | background.js:236-249 | content is read only from the active tab, and only when one url is a prefix of the other |
| Background.ClassifyFallback | background.js:105-108 | a failing classifier gives the translated default folder and the unchanged title |
| Background.ClassifyKeepsTitle | background.js:93-103 | with smart renaming off the pipeline keeps the page title |
| Background.PlaceNoDuplicate | background.js:111-129 | placing a url that had at most one bookmark leaves exactly one |
| Background.PlaceKeepsHistory | background.js:111-129 | placement touches neither history nor toasts |
| Background.PlaceRemembersCreated | background.js:121-127 | placing a url without a bookmark remembers the url |
| Background.PlaceFilesExisting | background.js:111-120 | an existing bookmark becomes the last child of the resolved folder, keeps its id and url, takes the new title only when it is non-empty and differs, and no node is added beyond a created folder |
| Background.PlaceFilesCreated | background.js:111-127 | without an existing bookmark exactly one is appended, in the resolved folder, titled `newTitle \|\| title`, with the url |
| Background.PlaceWellFormed | background.js:111-129 | placement keeps the store well formed |
| Background.ManualTriggerNoDuplicate | background.js:76-157 | a successful manual run never duplicates a bookmark |
| Background.ManualCreateSuppressesEcho | background.js:121-127 | after a manual run creates a bookmark, the creation event it causes is skipped and changes nothing but the remembered set |
| Background.OnCreatedSkipsOnce | background.js:17-20 | a remembered url is removed from the set and its event changes nothing else |
| Background.OnCreatedIgnoresFolders | background.js:14 | a node without a url changes nothing |
| Background.ManualTriggerHistory | background.js:131-155 | success records exactly one entry `(newTitle \|\| title, url, category, success)` and returns the category; failure records none |
| Background.EmptyCategoryDoesNothing | background.js:187-210 | an empty category leaves the world unchanged |
| Background.AutomaticRetitleOnlyWhenChanged | background.js:191-194 | without a new, different title the store is exactly the one after the move |
| Background.ServiceWorker.constructor | background.js:10 | the remembered set starts empty |
| Background.ServiceWorker.PlaceBookmark | background.js:111-129 | the new state and error are exactly `Place` of the old state, which files the page as Background.PlaceFilesExisting and Background.PlaceFilesCreated state |
| Background.ServiceWorker.HandleManualTrigger | background.js:76-157 | the new state and reply are exactly `ManualTrigger` of the old state |
| Background.ServiceWorker.HandleAiBookmarkRequest | background.js:160-164 | runs the manual pipeline for the sender's tab |
| Background.ServiceWorker.ProcessBookmarkClassification | background.js:167-211 | the new state and error are exactly `ProcessClassification` of the old state |
| Background.ServiceWorker.FileBookmark | background.js:187-210 | the new state and error are exactly `FileClassified` of the old state |
| Background.ServiceWorker.OnCreated | background.js:13-29 | the new state is exactly `OnCreatedSpec` of the old state |
| Background.ServiceWorker.OnCommand | background.js:32-53 | only the shortcut command with an active tab acts: an info toast, then the manual pipeline for that tab |
| Background.ServiceWorker.OnMessage | background.js:56-73 | both bookmark requests run the manual pipeline and get its reply; other messages get none and change nothing |
| Background.ServiceWorker.ExpireRecent | background.js:128 | the delayed removal takes the url out of the set |
| Background.ServiceWorker.FindBookmarkByUrl | background.js:251-254 | returns the first bookmark with the url, or none |
| I18n.PlaceholderEnd | utils/i18n.js:63 | recognises `$NAME$` with a non-empty name of letters, digits and `_` |
| I18n.FormatMessage | utils/i18n.js:59-60 | absent replacements return the message unchanged |
| I18n.Translate | utils/i18n.js:42-57 | a loaded message is formatted; otherwise the non-empty browser translation is formatted; otherwise the key is returned |
| I18n.NoDollarUnchanged | utils/i18n.js:63 | a message without `$` is unchanged |
| I18n.EmptyLookupUnchanged | utils/i18n.js:63-77 | with no replacement keys every placeholder is kept verbatim |
| I18n.PlaceholderReplaced | utils/i18n.js:63-68 | a placeholder whose lower-cased name is a key becomes that value, even an empty one, and scanning resumes after the placeholder, so the inserted value is never scanned again (one pass) |
| I18n.PlaceholderKept | utils/i18n.js:70-77 | a placeholder whose lower-cased name is not a key stays verbatim |
| I18n.EmptyValueDiffers | content.js:36 | an empty value removes the placeholder in the extension pages but leaves it verbatim in the content script |
| I18n.Translator.constructor | utils/i18n.js:2-3 | no messages are loaded and the language is `zh_CN` |
| I18n.LoadedCases | utils/i18n.js:24-40 | a load gives the language's bundle, else the `zh_CN` bundle for another language, else the messages held before; it never gives a bundle it did not find |
| I18n.Translator.LoadMessages | utils/i18n.js:24-40 | the messages become exactly what `Loaded` gives for the language and the messages held before; the language is unchanged |
| I18n.Translator.Init | utils/i18n.js:5-9 | the language is the stored one, or `zh_CN` when none is stored, and the messages are what loading it gives, with the `zh_CN` fallback and the old messages kept when both loads fail |
| I18n.Translator.OnLanguageChanged | utils/i18n.js:11-20 | a language change in the sync area is adopted and loaded, with the same fallback cases; any other change leaves language and messages as they were |
| Popup.ReplaceAll | popup/popup.js:139 | a string without the character is unchanged |
| Popup.ChainChar | popup/popup.js:139-143 | on one character the chain gives that character's entity, so inserted entities are not escaped again |
| Popup.ChainIsPerCharacter | popup/popup.js:139-143 | the replacement chain equals escaping each character on its own |
| Popup.EscapeHtmlPerCharacter | popup/popup.js:136-144 | a falsy value gives `''`; any other text gives its per-character escaping |
| Popup.EscapeHtmlSafe | popup/popup.js:136-144 | the output holds none of `<`, `>`, `"`, `'` and is never shorter than the text |
| Popup.ExistingEntityEscaped | popup/popup.js:139-143 | an entity already in the text is escaped again (`&lt;` becomes `&amp;lt;`) |
| Popup.HistoryPreview | popup/popup.js:100 | the popup shows a prefix of the history of at most 10 entries |
| Options.SaveFolderPolicy | options/options.js:182-186 | the switch is saved as a boolean, with the checked level or `weak` when none is checked |
| Options.RestoreLegacyForms | options/options.js:239-256 | `off` gives (false, weak), another string s gives (true, s), a boolean b gives (b, medium), anything else takes the stored level or `weak` |
| Options.SavedLevelLost | options/options.js:248-251 | as written, a saved `strong` level comes back as `medium` |
| Options.RestoreFolderPolicyFixed | options/options.js:235-256 | the corrected migration agrees with the original on every legacy string |
| Options.SaveRestoreRoundTrip | options/options.js:182-256 | with the corrected migration what is saved is restored: the switch and the checked level |
| Options.RemoveDomain | options/options.js:409 | the list never grows |
| Options.RemoveDomainContents | options/options.js:409 | every occurrence of the domain goes, and every other domain keeps all its occurrences |
| Options.RemoveDomainConcat | options/options.js:409 | filtering a list is filtering its parts, so the remaining domains keep their order |
| Options.RemoveDomainIdempotent | options/options.js:409 | removing twice is removing once |
| Options.UpdatePageTitle | options/options.js:70-87 | an unknown tab gets the settings title; the document title is set exactly when an application name is known |
| Options.ProviderFields | options/options.js:290-330 | `default` shows no key or model field; the model field (with a placeholder) appears exactly for the five named providers |
| Options.PlaceholderIsDefaultModel | options/options.js:298-324 | each placeholder is the model the request uses when the field is left empty |
| Content.ContentT | content.js:32-39 | the key itself when nothing is loaded or the key is missing; without replacements the message itself |
| Content.SubstituteAgrees | content.js:36 | when every value is non-empty the two substitutions agree |
| Content.ContentTAgrees | content.js:32-39 | for a loaded key and non-empty values the content script says what the extension pages say |
| Content.PageInfoOf | content.js:306-314 | the request carries the title and url, the meta description and keywords (empty when missing), and the digest of the page text cut to 1000 characters |
| Content.RequestError | content.js:317-343 | the request succeeds exactly on a success reply; a stale context becomes the reload message, and a failure without a message becomes `未知错误` |
| Content.AppendAbsentNoDuplicates | content.js:225-226 | appending an absent host keeps the list free of duplicates |
| Content.Page.CreateFloatingButton | content.js:47-91 | no button when one exists, the switch is off or the host is disabled; otherwise a fresh button; settings, drag variables and toasts stay |
| Content.Page.DragStart | content.js:150-158 | a mouse press with a button other than the left one is ignored; otherwise a drag starts unmoved at the press point; the button's flags, the settings and the toasts stay |
| Content.Page.DragMove | content.js:177-191 | only a move of more than 3 pixels on either axis during a drag marks it, on the closure and on the button; the start point, the settings, the loading mark and the toasts stay |
| Content.Page.DragEnd | content.js:197-208 | the drag ends, and a press that never moved clears the drag mark; the start point, the settings, the loading mark and the toasts stay |
| Content.Page.Click | content.js:72-79 | the click ending a drag is swallowed once and clears the mark; any other click starts a request; afterwards no drag mark is left, and the settings and drag variables stay |
| Content.Page.StartBookmark | content.js:296-314 | nothing while loading; otherwise the button is marked loading and the request is built; the drag mark, the drag variables, the settings and the toasts stay |
| Content.Page.FinishBookmark | content.js:330-348 | a success or error toast in the messages held, and the loading mark always cleared; the settings, the drag state and the button stay |
| Content.Page.DisableOnCurrentDomain | content.js:221-232 | an absent host is appended once, with a toast and the button removed; the list never gains a duplicate; the messages, the switch, the button's flags and the drag variables stay |
| Content.Page.OnStorageChanged | content.js:359-382 | the changed settings are stored; turning the switch off removes the button; turning it on creates one unless the host is disabled; a disabled host loses its button, a re-enabled host gets one while the switch is on, and other areas change nothing; a newly created button carries no flags, a kept one keeps its own, and the messages, drag variables and toasts stay |
| Content.Page.OnLanguageChanged | content.js:9-31 | a language change loads that language's bundle with the `zh_CN` fallback, as `I18n.Loaded` gives it; nothing else changes |
| Manager.ChildPrefix | manager/main.js:90 | a child's prefix extends the parent's by four characters |
| Manager.RenderNode | manager/main.js:86-134 | a node's own line comes first, and a bookmark yields exactly one line |
| Manager.SiblingLines | manager/main.js:85-131 | every node of the tree yields exactly one line, and the lines' ids are the tree's ids in pre-order |
| Manager.NodeLines | manager/main.js:126-130 | a node's line is followed by exactly one line per node of its subtree, in pre-order |
| Manager.AtLeastOneLineEach | manager/main.js:86 | there are at least as many lines as siblings |
| Manager.IndentsExtend | manager/main.js:86-134 | every line below a prefix extends it, by four characters per level the line lies below the prefix's level |
| Manager.TopLevelIndents | manager/main.js:90-109 | every line's indentation is four characters per level of nesting depth |
| Manager.TraverseBookmarksCli | manager/main.js:86-134 | appends exactly the pre-order rendering of the siblings |
| Manager.FolderNode | manager/main.js:228-252 | a bookmark yields nothing; a folder is listed first, indented by depth × 20 |
| Manager.FolderNodeShape | manager/main.js:228-252 | every option is indented by whole steps at least its depth, and selected exactly when it is the current parent |
| Manager.FolderSiblingsShape | manager/main.js:228-252 | the same for a run of siblings |
| Manager.TraverseFolders | manager/main.js:228-252 | appends exactly the folder listing of the siblings |
| Manager.HandleSearch | manager/main.js:254-274 | each line is shown exactly when the query is empty or its lower-cased title or url contains the lower-cased query |
| Manager.SearchIgnoresQueryCase | manager/main.js:255-267 | a query and its lower-case form show the same lines |
| Manager.SaveEdit | manager/main.js:187-215 | the dialog closes exactly when the node exists; a missing node leaves the store as it was |
| Manager.SaveEditResult | manager/main.js:187-215 | the title (and, for a bookmark, a non-empty url; an emptied url field leaves the url as it was) change unless the browser refuses the update; the node moves under the chosen parent, last, when it is elsewhere and the move is allowed, and otherwise keeps its place with the update kept; every other node stays as it was, in order |
| Worker.LastContent | archive/deploy/cloudflare-worker/worker.js:39-40 | the last message's content, or `""` with no messages |
| Worker.OptionsAlwaysPreflight | archive/deploy/cloudflare-worker/worker.js:18-26 | `OPTIONS` always gets the preflight headers |
| Worker.MethodCheckedFirst | archive/deploy/cloudflare-worker/worker.js:28-30 | any other method but `POST` gets 405 before anything else is read |
| Worker.PathCheckedBeforeBody | archive/deploy/cloudflare-worker/worker.js:32-35 | a wrong path gets 404 even with an unreadable body |
| Worker.UnreadableBodyFails | archive/deploy/cloudflare-worker/worker.js:80-85 | an unreadable body gets 500 with the CORS header |
| Worker.ContentCheckedBeforeOrigin | archive/deploy/cloudflare-worker/worker.js:45-52 | a request without a keyword gets the content 403 whatever its origin |
| Worker.ForwardIff | archive/deploy/cloudflare-worker/worker.js:18-67 | a request is forwarded exactly when method, path, body, keyword and origin all pass, with its body unchanged |
| Worker.OnlyLastMessageRead | archive/deploy/cloudflare-worker/worker.js:39-46 | earlier messages never change the verdict |
| Worker.UpstreamOnlyWhenForwarded | archive/deploy/cloudflare-worker/worker.js:66-74 | the upstream is called only for a forwarded request |
| Worker.ForwardRelays | archive/deploy/cloudflare-worker/worker.js:76-78 | a forwarded request gets the upstream status and body, its headers, and the CORS header |
| Worker.OriginIgnoredWhenUnset | archive/deploy/cloudflare-worker/worker.js:56-64 | without an extension id the origin is never looked at |
| Worker.CorsHeaderIff | archive/deploy/cloudflare-worker/worker.js:18-85 | the CORS header is on the preflight, the 500 and the relayed reply, and on no 405, 404 or 403 |
| Worker.ProxyEndpointServed | archive/deploy/cloudflare-worker/worker.js:32-35 | the default provider's endpoint path is the one the proxy serves |
| Worker.ChineseIntroHasKeyword | utils/llm.js:42 | the Chinese introduction contains `现有文件夹` |
| Worker.ChinesePromptForwarded | archive/deploy/cloudflare-worker/worker.js:45-64 | every non-English prompt sent by the extension is forwarded when the origin check passes |

## Left out

- Network, `chrome.*`, storage and the offscreen document: these are parameters or
  fields. Their asynchronous calling convention carries no logic.
- JSON grammar: `JSON.parse` is a parameter returning the two fields read. The proxy
  forwards the body it parsed, and `JSON.stringify` of an error is the `ErrorJson`
  constructor.
- URL parsing in the proxy: a request carries its path directly.
- Timers and concurrency:
  - the 10-second expiry of a remembered url is the separate `ExpireRecent` method;
  - the popup's 30-second race, the options page's debounce and toast timeouts are not
    modelled;
  - events are taken one at a time.
- Exceptions thrown by `chrome.storage` or `chrome.tabs.query` themselves are not
  modelled. Injection failure and backend failure are.
- DOM rendering, translation passes over the DOM, theme detection
  (`options/theme_utils.js`, the brightness computation in `content.js`) and toast
  positioning: display geometry and floating point.
- `offscreen/offscreen.js`, `utils/logger.js` and `test_deepseek_cf.js`: a wrapper over
  the page's AI object, console wrappers and a manual smoke test. They are not part of
  this model.
- Prompt wording: only the structure is proved (the folder text, the language branch,
  the rename branch). No lemma says whether an English prompt passes the proxy's
  keyword check.
- Text.Lower: only ASCII letters are folded. JavaScript's `toLowerCase` folds every
  letter with a lower-case form (`É` to `é`), so a non-ASCII query the page matches
  regardless of case may be hidden by the model.
- Manager.HandleSearch: inherits the ASCII-only folding of Text.Lower.
- Text.Digest: the limit counts characters (code points). JavaScript's `substring` counts
  UTF-16 units, so a text with characters outside the Basic Multilingual Plane is cut
  later in the model than in the extension.
- Content.PageInfoOf and Background.ExtractPageContentFromTab: inherit that counting from
  Text.Digest.
- Bookmarks.UpdateIn: the browser's url validation and canonicalisation are not modelled. A
  non-empty url it would reject as invalid is stored as given, and a valid one is stored
  as written rather than in canonical form.
- Content.NoReply and Bookmarks.NoBar: the token `TypeError` stands for the engine's
  message (`Cannot read properties of undefined (reading 'error')` or `(reading
  'children')`), which the error toast shows in full.
- Bookmarks.AncestorOrSelf: the ancestor walk of the browser's move check has a fuel bound
  of the store's size. A parent chain longer than that is not followed.
- The edit dialog's callbacks (`update`, then `get` and `move`) are one step in
  `Manager.SaveEdit`, which ignores the browser's errors as they do. The folder picker's
  click handler and the context menu are left out.
- Manager.TraverseBookmarksCli: a node's `children` array missing and an empty one are
  treated alike.
- Content.Page.OnStorageChanged: the new settings are stored before the button is
  recreated. The asynchronous re-read that `createFloatingButton` does is not modelled
  separately.

## Findings

| source | as written | input that shows it | evidently intended | confidence | as-written member | corrected member |
|---|---|---|---|---|---|---|
| options/options.js:248-251 | `autoSaveOptions` stores `allowNewFolders` as a boolean, and `restoreOptions` maps any boolean to level `medium`, ignoring the stored `folderCreationLevel` | save with strategy `strong` checked, then reopen the options page: the `medium` radio is checked | a boolean restores the stored level (or `weak`) | not executed | Options.SavedLevelLost | Options.SaveRestoreRoundTrip |
