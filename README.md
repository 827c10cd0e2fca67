# Arabs Stock AI metadata helper: a Dafny model

The system is a browser extension for contributors to the Arabs Stock image
site, with a Python server behind it. The server generates titles, keywords and
categories for uploaded images through OpenAI, Gemini or an offline analyzer.
This project models four parts of it and proves what each promises.

- **Background service worker** (`Background`, class `BackgroundWorker`).
  - A message dispatcher that sends exactly one reply of the shape
    `{success, data?|error?|online?}` for every action, for the unknown action and
    when a handler throws.
  - A statistics accumulator persisted in synced storage, and a settings
    normaliser.
  - A server-online flag, set by the health check and by a 30-second tick that
    announces its transitions. The three API methods refuse to run while the flag
    is false.
  - The badge/injection decision on tab updates and the toolbar-click decision.
- **Content script** (`Content`, class `ContentHelper`).
  - The upload-page test.
  - The precedence search `findField` over the page's input, textarea and select
    elements, and the six-slot `detectFormFields` built on it.
  - First-matching-selector placement of the helper panel, whose inputs and
    selects then join the page that `findField` searches.
  - The panel's select semantics: a category or license its select does not
    offer reads as none.
  - The `isProcessing` guard of image analysis.
  - The exclusive language toggle.
  - The keyword count and the SEO score.
  - The conditions under which `fillTitle` writes the page's title fields.
- **Injected page script** (`Inject`, class `Injector`).
  - The constructor state and the idempotent `init`.
  - First-hit framework detection with a `'vanilla'` default.
  - The `HTMLFormElement.prototype.submit` override, which publishes an event for
    upload forms and always calls the native `submit`.
  - The `invalid` listener.
- **Server AI configuration** (`Backend`, class `MetadataGenerator`).
  - The ordered list of available providers.
  - The case-insensitive `set_ai_provider` transition, which falls back to offline
    on every failure.
  - The dispatch of an analysis to the current provider, with the offline analysis
    as fallback.

Each DOM page is a sequence of element records in document order, and an element
is referred to by its position. Each browser storage area is a map from keys to
JavaScript values, where an absent key reads as `undefined`. The process
environment is a map from names to strings.

Every outcome of the network or an AI service is a parameter: `fetch` responses,
the connection tests and the analyzers' results. So are `Date.now()`, the page's
framework globals and what `isArabsStockForm` answers. Calls into browser APIs
become recorded effects: replies, requests, notifications, insertions, fields
passed to `triggerChange`, and messages shown. `wrappers.dfy` holds the `Option`
and `Result` types. `js.dfy` holds the JavaScript semantics the model needs:
truthiness, `includes`, `split`/`join`, `trim()`-blankness, `replace` and number
formatting.

## Model

| member | source | states |
|---|---|---|
| Background.ReplyOf | background.js:87-131 | a handler's result becomes a success reply carrying its data; a thrown error becomes `{success:false, error: message}` and never a success; the reply is well formed |
| Background.BackgroundWorker.HandleMessage | background.js:87-131 | exactly one well-formed reply is appended on every path. An unknown action replies 'Unkown action' and changes no stats, storage, flag or requests. Offline, each server action replies with its own offline message and issues no request. Online, it sends one request to its endpoint and replies with the fetch's result; analysis and optimisation add to the stats and store them only on success, and translation never does. `updateStats` with stats applies them and stores them, and without stats it replies with the TypeError and changes nothing. `getStats`, `getSettings` and `checkServerStatus` reply as their handlers do. The online flag changes only for `checkServerStatus` |
| Background.ApplyDelta | background.js:373-383 | a counter grows by its increment exactly when that increment is truthy, and stays unchanged when the increment is absent or zero; `lastActive` is always now |
| Background.UpdatesAccumulate | background.js:373-383 | two successive updates equal one update with the summed increments |
| Background.BackgroundWorker.UpdateStats | background.js:373-383 | the new stats are the old ones with the delta applied, and storage holds the new stats |
| Background.StoreStats | background.js:395-401 | storage gains three counter keys and every other key is unchanged |
| Background.BackgroundWorker.SaveStats | background.js:395-401 | storage is the old storage with the current stats written |
| Background.BackgroundWorker.LoadStats | background.js:385-393 | the stats are those read back from storage, with defaults for falsy entries |
| Background.SaveLoadRoundTrip | background.js:385-401 | loading what was saved gives back the saved stats |
| Background.LoadFromEmptyStorage | background.js:385-393 | empty storage loads as zero counters stamped with now |
| Background.NormalisedSettings | background.js:411-416 | auto-fill and notifications are true unless stored exactly false; Arabic priority is true only if stored exactly true; a falsy stored API URL falls back to the worker's own |
| Background.BackgroundWorker.GetSettings | background.js:403-419 | returns the normalised settings of the current storage |
| Background.NormaliseIdempotent | background.js:403-419 | storing normalised settings and normalising them again changes nothing |
| Background.DefaultSettings | background.js:58-70 | both empty storage and the installation entries normalise to (true, true, false, default URL) |
| Background.FetchResult | background.js:218-224 | Ok exactly on an OK response, with its body; a rejection keeps its message; a non-OK response gives "prefix: status" |
| Background.BackgroundWorker.CheckServerHealth | background.js:333-346 | the flag becomes `response.ok`, or false on rejection; the new flag is returned; one health request is issued |
| Background.BackgroundWorker.HealthTick | background.js:350-365 | corrected (see ## Findings): a tick re-checks and emits at most one notification, the one for the transition; 'Server Offline' is emitted exactly on a true-to-false transition |
| Background.TickNotification | background.js:351-365 | 'Server Offline' exactly on true-to-false, 'Server Online' exactly on false-to-true, nothing when the flag is unchanged |
| Background.TickAsWrittenAnnouncesOnlineWhileOffline | background.js:354-365 | as written, a server that stays offline is announced as restored and a recovery is not announced |
| Background.BackgroundWorker.AnalyzeImage | background.js:208-236 | offline: throws the offline error before any request; online: exactly one request to /analyze, its outcome is the result, and only a success counts one image |
| Background.BackgroundWorker.TranslateText | background.js:238-261 | offline: throws before any request; online: one request to /translate whose outcome is the result |
| Background.BackgroundWorker.OptimizeMetadata | background.js:263-291 | corrected (see ## Findings): offline, it throws before any request; online, it sends one request to /optimize, and only a success adds the number of optimised keywords |
| Background.GeneratedKeywordCount | background.js:284 | the count is the length of `optimized_keywords`, or 0 when it is missing |
| Background.OptimizeCountsNothingAsWritten | background.js:284 | as written, the keyword counter never moves |
| Background.OptimizeCountsKeywords | background.js:284 | corrected, the counter grows by exactly the number of keywords returned |
| Background.TabUpdateEffects | background.js:133-143 | the badge is set and the script injected exactly when the status is 'complete' and the URL contains 'arabsstock.com', and nothing happens otherwise |
| Background.ActionClickEffect | background.js:145-152 | the popup opens exactly on such URLs; otherwise a tab opens on the contributor site |
| Background.BadgedTabOpensPopup | background.js:133-152 | a tab that was badged is one where clicking the button opens the popup |
| Background.BackgroundWorker.constructor | background.js:5-28 | the worker starts with the default URL, the stats loaded from storage and the flag set by one health check |
| Content.FirstIndex | content.js:36 | `querySelector`: returns the first element in document order that satisfies the criterion, or null exactly when none does |
| Content.IsUploadPage | content.js:30-37 | true iff the URL contains '/warehouse', '/upload' or '/edit', or a file input exists |
| Content.Query | content.js:237-245 | one `[attr*=name]` query: the first matching element in document order, or none exactly when nothing matches under that selector |
| Content.CandidateLookup | content.js:235-246 | one candidate gives nothing exactly when none of its three selectors matches |
| Content.ContentHelper.FindField | content.js:234-249 | the nested loop with early returns computes the precedence lookup over the current page, which includes the panel's controls once it has been injected |
| Content.FieldLookupNoneIff | content.js:234-248 | null exactly when no candidate matches any element under any selector |
| Content.FieldLookupSound | content.js:235-246 | a returned element matches a candidate under a selector; every earlier candidate matches nothing; every earlier selector for that candidate matches nothing; and no earlier element matches that selector |
| Content.FieldLookupComplete | content.js:235-246 | the element singled out by that precedence order is the one returned |
| Content.SelectFoundByNameOrId | content.js:237-245 | a select element is only ever returned through its name or its id, never its placeholder |
| Content.DropUnmatchedCandidate | content.js:235-247 | a candidate that matches nothing can be removed without changing the result |
| Content.ContainedCandidateUnmatched | content.js:237-245 | substring matching: if a name matches nothing, no name containing it matches anything |
| Content.RedundantCandidate | content.js:235-247 | a later candidate containing the first one never decides the result |
| Content.ContainedCandidatesNeverDecide | content.js:225-230 | 'title_en', 'keywords_en' and 'license_type' can be removed from their lists without changing any lookup |
| Content.ContentHelper.DetectFormFields | content.js:222-232 | `formFields` is replaced by exactly the six slots, each looked up with its own list in the current page, the injected panel included |
| Content.DetectedFieldsBySlot | content.js:224-231 | each slot holds its list's lookup result: an element of the page, or null exactly when nothing matches |
| Content.ArabicTitleFieldFillsBothSlots | content.js:225-226 | a page whose only field is named 'title_ar' fills both the English and the Arabic title slot with it |
| Content.ContentHelper.OnMutation | content.js:207-214 | a child-list change re-detects the fields in the current page, the injected panel included; any other mutation leaves them unchanged |
| Content.Resolve | content.js:54 | a target selector resolves to the first element it matches, or to nothing exactly when nothing matches |
| Content.FirstResolving | content.js:53-68 | finds the first selector in list order that resolves; every earlier one resolves to nothing |
| Content.ContentHelper.InjectAIHelper | content.js:39-69 | the panel is inserted at most once, into the first target that resolves, and afterwards the page holds the panel's elements right after that target (`AfterInjection`) |
| Content.InsertPanel | content.js:56-65 | the panel's six elements come right after the target, and every element of the page keeps its order before and after them |
| Content.InsertPanelOutside | content.js:64 | outside the panel's range, the page after insertion is the page before, shifted past the panel |
| Content.UnmatchedSlotFoundInPanel | content.js:234-249 | a slot the host page cannot fill is, after insertion, only ever filled with an element of the panel |
| Content.PanelFillsTitleSlots | content.js:102-103 | after insertion, neither title slot is null, because the panel's title inputs match 'title' and 'عنوان' by placeholder |
| Content.PanelTitlePlaceholders | content.js:102-103 | the placeholders of `#aiTitleEn` and `#aiTitleAr` contain 'title' and 'عنوان' |
| Content.TitleEnFromPanel | content.js:234-249 | when no host element matches 'title', the English title slot after insertion is one of the panel's elements, whatever other host fields match later candidates |
| Content.NameOnlyUploadHostSlots | content.js:234-249 | on a multipart form whose only field is named 'name', the English title slot is that field and the Arabic one is null |
| Content.PanelShadowsHostTitleField | content.js:39-69 | on that form, after injection both title slots are panel elements, so `fillTitle` writes into the panel and not into the host form |
| Content.FloatingOnlyWithoutForms | content.js:44-63 | the panel floats exactly when nothing on the page is a form or carries a form class, and then its target is the body; otherwise its target is such an element |
| Content.NoTargetWithoutBody | content.js:44-68 | no insertion happens exactly when the page has neither a body nor anything form-like |
| Content.ContentHelper.SetupUI | content.js:22-28 | on an upload page, the panel is placed in the page and the page is observed; elsewhere nothing changes |
| Content.ContentHelper.constructor | content.js:5-20 | the helper starts idle, with the initial panel. Once the page has loaded, setup runs: on an upload page the page then holds the panel, the insertion is recorded and the page is observed; otherwise the page, the insertions and the observer stay unchanged. While it is loading, setup is left pending |
| Content.ContentHelper.OnDomContentLoaded | content.js:15-16 | the listener runs setup once, if it is pending: on an upload page the panel is placed and the page observed; afterwards nothing is pending |
| Content.ContentHelper.ProcessImage | content.js:258-303 | while busy, it returns with no state change. Otherwise it ends not busy with the spinner hidden. On success the whole panel is what `Displayed` gives for the metadata and no message is shown; on failure only the spinner changes and the error message is shown |
| Content.ContentHelper.DisplayMetadata | content.js:313-329 | the new panel is exactly `Displayed` of the old panel and the metadata |
| Content.SelectValue | content.js:321-322 | assigning a select's value keeps a value some option carries, and otherwise the select reads '' |
| Content.Displayed | content.js:313-350 | the titles are the metadata's (or ''); the category and license are always options of their selects; the count is the keyword entries of both joined fields; the score is SeoScore of what is shown; the metadata is visible; the spinner, language buttons and visibility are kept |
| Content.DisplayedKeywordCount | content.js:317-336 | keywords shown joined with ', ' are counted back one for one, the blank ones left out, when none contains a comma |
| Content.UnofferedCategoryScoresNothing | content.js:114-126 | a category the select does not offer (such as the server's Sports) is shown as none and the result is the same as with no category at all, score included |
| Content.DisplayedLicense | content.js:134-138 | the shown license is 'commercial' or 'editorial' when the metadata says so, and '' otherwise |
| Content.ContentHelper.SwitchLanguage | content.js:352-370 | exactly the chosen button is active; English fields are shown iff lang is 'en' and Arabic ones otherwise; never both at once. This is the intended toggle: the throws as written are under ## Left out |
| Content.KeywordCount | content.js:332-333 | the keyword entries are the comma-split pieces that are not blank, so there are no more of them than pieces |
| Content.KeywordCountOfJoined | content.js:318-333 | keywords shown joined with ", " count back as exactly the non-blank keywords (when none contains a comma) |
| Content.SeoScore | content.js:341-349 | a multiple of 10 and at most 100, so the cap never binds; 100 exactly when all five conditions hold |
| Content.ContentHelper.UpdateStats | content.js:331-350 | corrected (see ## Findings): the count is the keyword entries of both fields; the score is computed step by step and equals SeoScore; nothing else changes |
| Content.SeoScoreAsWrittenOnlySeesCategory | content.js:334-347 | as written, the score is 10 with a category and 0 without |
| Content.SeoScoreDiscrepancy | content.js:334-347 | a complete entry scores 100 corrected but 10 as written |
| Content.WriteValue | content.js:462-470 | a value is written only to a found field and only when non-empty; every other element is unchanged; a host select is written as a text field (see ## Left out) |
| Content.ContentHelper.FillTitle | content.js:457-473 | fields re-detected in the page as it is, the injected panel included; each title written to its slot only when both exist; `triggerChange` on exactly those; success message shown |
| Content.FillTitleTouchesOnlyTitleSlots | content.js:457-473 | no element other than the two title slots changes |
| Content.ArabicTitleOverwritesEnglish | content.js:462-470 | when both title slots are one 'title_ar' field, it ends up holding the Arabic title |
| Inject.FindFramework | inject.js:61 | `find` over the keys returns the first key whose probe is truthy, or none exactly when no probe is |
| Inject.DetectFramework | inject.js:52-63 | the result is one of the four framework keys or 'vanilla' |
| Inject.VanillaIffNoProbe | inject.js:54-61 | 'vanilla' exactly when no probe is truthy |
| Inject.FirstTruthyProbeWins | inject.js:54-61 | a framework is reported exactly when its probe is truthy and every earlier probe is not |
| Inject.FrameworkPrecedence | inject.js:54-61 | React wins over all; jQuery only without the other three |
| Inject.EnctypeString | inject.js:71 | the enctype property only ever reads as one of the three keywords |
| Inject.MisspeltEnctypeNeverMatches | inject.js:71-73 | the misspelt literal never equals the enctype, so only the file-input and class tests decide |
| Inject.MultipartFormMissedAsWritten | inject.js:71-73 | a multipart form without a file input or the class is missed as written and caught as intended |
| Inject.AsWrittenImpliesIntended | inject.js:71-73 | every form the written test accepts, the intended test accepts |
| Inject.Injector.constructor | inject.js:8-12 | not initialised, empty form cache, no observer, no website API, nothing hooked |
| Inject.Injector.Init | inject.js:17-30 | once initialised, a call changes nothing; a first call sets up now, or waits for DOMContentLoaded while loading |
| Inject.Injector.OnDomContentLoaded | inject.js:24 | a pending setup runs once |
| Inject.Injector.Setup | inject.js:32-37 | the framework is detected, then submission and validation are hooked |
| Inject.Injector.HookFormHandlers | inject.js:65-91 | the submit override is installed and validation hooked |
| Inject.Injector.HookFormValidation | inject.js:93-107 | the invalid listener is registered |
| Inject.Injector.Submit | inject.js:69-87 | corrected (see ## Findings): the native submit runs exactly once and its result is returned; a submission event is announced exactly when the override is installed and the form qualifies |
| Inject.Injector.OnInvalid | inject.js:95-106 | a validation event carrying the field and its message is announced exactly when the listener is installed and the form is tracked |
| Backend.ProviderValue | backend/app.py:23-26 | the three enum values |
| Backend.ParseProvider | backend/app.py:109-151 | a provider is selected exactly when the lowered name is 'openai', 'gemini' or 'offline', and it is that provider |
| Backend.ParseProviderValue | backend/app.py:23-26 | every enum value selects its own provider |
| Backend.ParseProviderCaseInsensitive | backend/app.py:109 | the selection does not depend on letter case |
| Backend.ProvidersFor | backend/app.py:81-100 | the list holds between one and three entries |
| Backend.OfflineAlwaysLast | backend/app.py:99-100 | OFFLINE is last and appears once |
| Backend.AvailableIffKey | backend/app.py:86-97 | OPENAI is present iff its key is set; GEMINI iff GEMINI_API_KEY or GOOGLE_API_KEY is set; OFFLINE always |
| Backend.ProvidersOrdered | backend/app.py:81-104 | the list is ordered OPENAI, GEMINI, OFFLINE, and its head, the default, is the first one available |
| Backend.MetadataGenerator.constructor | backend/app.py:35-44 | starts from (OFFLINE, "", ""), then takes the first available provider; the key and model stay empty |
| Backend.MetadataGenerator.SetupAIProviders | backend/app.py:81-104 | the list built step by step equals ProvidersFor; the current provider is its head; the library keys are set only for available providers |
| Backend.MetadataGenerator.SetAIProvider | backend/app.py:106-161 | 'offline' returns true with (OFFLINE, "", 'offline'); an unsupported name or a failed test returns false with that same config; a successful 'openai'/'gemini' sets that provider, the given or environment key, and the given or default model; an explicit key is written to the environment and the library |
| Backend.AnalyzeImageWithAI | backend/app.py:186-197 | the current provider's analyzer is called first; its result is returned unless it raised, in which case the offline analyzer is called and its result returned |
| Backend.AnalyzeCallsOnlyItsProvider | backend/app.py:186-197 | offline mode calls only the offline analyzer, and an online provider never calls the other online analyzer |
| Backend.MetadataGenerator.Analyze | backend/app.py:186-197 | the dispatch on the generator's current configuration |
| Backend.FailedSelectionAnalysesOffline | backend/app.py:154-161 | after a failed selection, analysis runs only offline |

## Left out

- Network, AI services and the Flask app: `fetch`, the OpenAI and Gemini calls, googletrans and the HTTP routes are not modelled. Their outcomes are parameters, and the analyzers' results are opaque strings.
- Browser APIs: `chrome.storage` is a map, and tabs, action, scripting, notifications and context menus are recorded effects or not modelled. The install handler, the context menus, `analyzeImageFromUrl`, `blobToBase64`, `showNotification` and `handleError` are not modelled. `DefaultSettings` covers only the entries that installation writes.
- Asynchrony: every handler runs to completion in one step. Promise interleaving, the 30-second timer and the MutationObserver's registration are not modelled. The observer's callback is `OnMutation`.
- Panel styling and event wiring (content.js:71-203) are not modelled. This includes the drop handler's `files.lenght` test (content.js:193). The panel's live values, counters and visibility flags are the `Panel` record. Its container, file input, title inputs and selects are also inserted into the page (`PanelElements`), so lookups see them. The page copies keep the values they were inserted with. The buttons, labels, stats block and hidden sections are not page elements here. `fillTitle` may resolve a title slot to `#aiTitleEn` or `#aiTitleAr` itself. It then writes an input's own value back, which changes nothing the user sees.
- FileReader and base64 conversion are not modelled. `fileToBase64` (content.js:305-311) never calls `readAsDataURL`, so its promise never settles. `ContentHelper.ProcessImage` instead takes the image's data URL and the server's answer as parameters.
- Crash paths from misspelt identifiers are modelled as intended, and each is listed here.
  - `imageDaata` (background.js:219) throws a ReferenceError, so `AnalyzeImage` as written always fails once online. The model sends the image.
  - `chrome.scripting.excecuteScript` (background.js:193) would reject. Injection is a recorded effect.
  - `documetn.body` (content.js:216) throws. Observation is a flag set by `SetupUI`.
  - `panel.querySelector('aiUploadArea')` (content.js:184) is null, so wiring throws. Wiring is left out.
  - `this.showLoading = false` (content.js:301) replaces the method. The model hides the spinner.
  - `getElementById('aiKeyowrdsEn')` (content.js:318) and `getElementById('keywordsCount')` (content.js:336) are null. The panel's inputs (content.js:74-170) also lack the keyword fields that `updateStats` reads. The model writes the intended fields.
  - `this.initialized()` (inject.js:14) throws a TypeError. `Inject.Injector.constructor` models lines 9-12, and `Init` is called separately.
  - The IIFE at inject.js:4-111 is never invoked, so the injector never exists. The model describes the class as if it did.
  - content.js declares `class ArabsStockHelper` (content.js:4) and ends at its closing brace (content.js:476). Nothing ever instantiates it, so as written no part of the content script runs.
    - The panel's inline handlers (content.js:106, 107, 128, 140, 155, 158) call methods of `arabsStockHelper`, a global nothing defines. So `fillTitle` cannot be reached from the "Fill Form" button.
    - The model describes `ContentHelper` as if `const arabsStockHelper = new ArabsStockHelper()` ended the file. Every method of the model is then an entry point the page could call.
  - The second, empty `hookFormHandlers() {}` (inject.js:109) replaces the one at line 65. The model uses the one at line 65.
- Undefined helpers become effects or parameters. `triggerChange` is the `changed` list. `showError`/`showSuccess` are `messages`. `showLoading` is `loadingVisible`. `isArabsStockForm` is the `tracked` parameter. `setupDeepObserver`, `exposeAPI`, `hookUploadHandlers` and `monitorDynamicForms` (inject.js:40-49) are left out. They are undefined, so as written `setup` throws before `this.initialized = true` (inject.js:29). On the non-loading path, `init` is therefore not idempotent as written. The model completes `setup` and sets the flag.
- `regenerateTitle`, `optimizeKeywords`, `suggestMore` and `fillKeywords` (content.js:372-475) are not modelled.
- `Inject.Probes`: the probe `document.querySelector(['data-reactroot'])` and its siblings (inject.js:55-57) pass an array as the selector. Each probe is a boolean parameter.
- `Inject.FormInfo`: `this.querySelector('input[type="file"')` (inject.js:72) is left unclosed. Whether the form holds a file input is the boolean `hasFileInput`. The submission event's `formData: new FormData(this)` (inject.js:78-81) is not built: `FormSubmission(form)` identifies the form, and its data is that form's.
- `Background.TabUpdateEffects`: the badge colour '667eea' lacks '#', and `setBadgeBackgroundColor` would reject it. The model records the call with the literal.
- `Background.DefaultSettings`: installation writes `notificationEnabled` (background.js:65), and `showNotification` reads `notoficationsEnabled` (background.js:422). Neither is the key `getSettings` reads.
- `Content.ContentHelper.SwitchLanguage`: the model toggles the intended groups: the chosen panel button becomes active, and exactly one title input is shown. The source differs in three ways:
  - With a language that has no button, `querySelector` (content.js:357) returns null, and the call throws after clearing the buttons. The model clears the buttons and returns.
  - The panel has no `aiKeywordsEn` or `aiKeywordsAr` element (content.js:74-170). For 'en', showing `aiTitleEn` succeeds, then `getElementById('aiKeywordsEn').style` throws (content.js:363) before the Arabic fields are hidden. Switching 'ar' then 'en' therefore leaves both title inputs visible. For 'ar', `aiTitleEn` is hidden, then the same lookup throws (content.js:366) before `aiTitleAr` is shown, so no title input is visible. The model's "exactly one group visible" holds only for the intended toggle.
  - `querySelectorAll('.lang-btn')` and `querySelector('[data-lang=…]')` (content.js:354-357) search the whole document. Page elements carry no `data-lang` attribute here. So a host element with `data-lang="en"` that comes before the panel, such as a header link, would be activated in place of the panel's button. The model always activates the panel's own button.
- `Content.Metadata`: the server's nested `titles.en`, `keywords.en`, `category.en` and `license` are flattened into one record. The property JavaScript throws on when `titles`, `keywords` or `category` itself is missing is not modelled.
- `Content.SelectorMatches`: in an HTML document, the selector `form[enctype="multipart/form-data"]` (content.js:45) matches the attribute's value case-insensitively, so it also matches `enctype="Multipart/Form-Data"`. The model compares the value exactly, so such a form falls through to the later targets.
- `Content.IsFileInput`: likewise, `input[type="file"]` (content.js:36) matches `type="FILE"` in an HTML document. The model compares the value exactly, so it misses such an input in the upload-page test.
- `Content.WriteValue`: a title slot found on the host page can be a `<select>` (`Content.SelectFoundByNameOrId`). The host's options are not modelled, so the write stores the title in the select as if it were a text field. In the browser, a select offered no option with that value selects nothing and reads "", as `Content.SelectValue` models for the panel's own selects.
- `Content.SeoScore`: lengths are counted in code points, not UTF-16 code units. The two differ only outside the Basic Multilingual Plane, so the title tests for such text may differ from the browser.
- `Backend.Lower`: ASCII lower-casing stands in for `str.lower()`. No non-ASCII character lowers to a letter of 'openai', 'gemini' or 'offline'.
- `Backend.MetadataGenerator.SetAIProvider`: the connection test is the parameter `connectionOk`. `_test_openai_connection` (backend/app.py:163-173) passes `max_token`, a keyword argument the client is unlikely to accept, and that would make the test fail whatever the key. An explicit OpenAI key is written to the environment variable `OPEN_AI_KEY` (backend/app.py:112), not `OPENAI_API_KEY`. The model writes that name.
- `Backend.AnalyzeImageWithAI`: an exception raised by the offline analyzer in the fallback is not modelled.
- The server's translation, keyword and category logic after backend/app.py:197 is not part of this model.
- `Background.CountOr`: a stored counter that is truthy but not a number, such as a non-empty string, is returned itself by `x || 0`. The model returns the fallback. Only the extension writes these keys, and it writes numbers.
- Integer width: counters are unbounded integers. JavaScript numbers lose precision above 2^53, which the counters here cannot plausibly reach.

## Findings

| source | as written | input that shows it | evidently intended | confidence | as-written member | corrected member |
|---|---|---|---|---|---|---|
| background.js:360 | the second branch tests `!wasOnline && !this.isServerOnline` | a server offline before and after a tick: "Server Online … restored" is shown; a real recovery shows nothing | announce restoration when `!wasOnline && this.isServerOnline` | high, not executed | Background.TickAsWrittenAnnouncesOnlineWhileOffline | Background.TickNotification |
| background.js:284 | `result.optimized_keywords?.lenght \|\| 0` | any successful optimisation, e.g. 12 keywords returned: the counter adds 0 | add `optimized_keywords.length` | high, not executed | Background.OptimizeCountsNothingAsWritten | Background.OptimizeCountsKeywords |
| content.js:334, 343-344 | `.lenght` on arrays and strings reads undefined, so both title tests and the keyword total are NaN | title "Desert sunset over dunes", Arabic title "غروب الصحراء", 12 keywords, category "Nature": scored 10 instead of 100 | use `.length` | high, not executed | Content.SeoScoreDiscrepancy | Content.SeoScore |
| inject.js:71 | the enctype is compared with 'mulitpart/form-data' | a multipart form with no file input and no 'upload-form' class: no submission event | compare with 'multipart/form-data' | high, not executed | Inject.MultipartFormMissedAsWritten | Inject.SubmitQualifies |
