# Mirqab dashboard front-end: a Dafny model of its client-side rules

Mirqab is a dashboard for a camouflage-detection backend. The front-end signs in to nothing, stores nothing and computes little. It resolves interface strings in Arabic or English, keeps the active language, builds requests to the backend and turns replies into page state. This project models those rules and proves what they promise:

- **Translations** (`I18n`). The two string tables are functions over a closed key type. `Translate` is `t(key, lang)` with its `|| key` fallback. Every entry of both tables is non-empty, so the lookup always returns the table entry.
- **Language state** (`LanguageContext`). A provider object holds `lang`, which starts as Arabic. `setLang` replaces it. The bound `t`, `isRTL` and the `dir` attribute are read from it. `useLanguage` fails outside a provider.
- **API client** (`Api`). It covers base-address selection and `getStorageUrl`. Each operation's request is a value: method, address, ordered query parameters, and a multipart form grown by `FormData.append`. Each operation also turns a reply into its outcome. Only `processVideo` looks at the HTTP status.
- **Header** (`Header`). The last health record, the online flag and status text derived from it, and the language toggle with its label.
- **Assistant page** (`AssistantPage`). The send handler appends to the message log: one question, then one reply or an error reply. The model also covers the guard for an empty send, the example questions, and the five referenced reports shown under a reply.
- **Analyze page** (`AnalyzePage`). The MIME check on dropped files, the both-or-neither location rule, the notification chosen for a reply, the quick-test result, and how the handlers update the page.

Replies from the server are inputs to the model. A call's outcome is `Result<T, ClientError>`: the parsed body, or a network failure, a body that is not JSON, or a thrown `Error` with its message. The base address is a parameter (`base`), computed once by `Api.BaseUrl` from the `VITE_API_URL` setting.

The helper modules are `wrappers.dfy` (Option, Result) and `jsstring.dfy`. The latter holds the JavaScript string primitives the code relies on: `startsWith`, `trim` with ECMAScript's whitespace set, and `Number.prototype.toString` on integers. Each proved property is stated of these definitions.

Points where the code's behaviour is easy to misread:

- `getStorageUrl` is idempotent only when the base address starts with `"http"`. `Api.StorageUrlIdempotent` proves the "if" direction. `Api.StorageUrlIdempotentOnlyIfAbsoluteBase` proves the converse for every non-empty base. `Api.StorageUrlNotIdempotentForRelativeBase` shows a relative base such as `/backend` being prefixed twice.
- The fallback of `t` fires on an empty entry as well as a missing one, because `||` treats `""` as false. The key type is closed, so no key is unknown to the typed lookup.
- `getDetectionStats` takes its time range as any string; only `getDetectionReports` restricts it to the four values.
- The assistant page never reads the `success` flag of a reply. It shows `answer` as it is.

## Model

| member | source | states |
|---|---|---|
| I18n.Code | src/lib/i18n.ts:3 | The two languages are sent as exactly the codes "ar" and "en", one each |
| I18n.Name | src/lib/i18n.ts:180-181 | Each key's own identifier, the text `t` falls back to for an empty entry |
| I18n.ArText | src/lib/i18n.ts:6-91 | The Arabic table: the entry for each of the 61 keys, string for string |
| I18n.EnText | src/lib/i18n.ts:92-177 | The English table: the entry for each of the 61 keys, string for string |
| I18n.Entry | src/lib/i18n.ts:181 | `translations[lang][key]`: the Arabic table for "ar", the English table for "en" |
| I18n.Translate | src/lib/i18n.ts:180-182 | The lookup is total and never empty; a non-empty entry is returned as it is, an empty one falls back to the key's name |
| I18n.EntriesAreNonEmpty | src/lib/i18n.ts:6-177 | Every key has a non-empty entry in the Arabic table and in the English table |
| I18n.ArEntriesAreNonEmpty | src/lib/i18n.ts:6-91 | Every key has a non-empty entry in the Arabic table |
| I18n.EnEntriesAreNonEmpty | src/lib/i18n.ts:92-177 | Every key has a non-empty entry in the English table |
| I18n.TranslateIsEntry | src/lib/i18n.ts:181 | For every key and language `t(key, lang)` equals `translations[lang][key]` |
| JsString.StartsWith | src/lib/api.ts:188 | `s.startsWith(prefix)`: the prefix is an initial segment of the string |
| JsString.Trim | src/pages/AssistantPage.tsx:52 | The trimmed text neither starts nor ends with whitespace |
| JsString.TrimIsInfix | src/pages/AssistantPage.tsx:52 | The trimmed text is a contiguous piece of the input, with only whitespace cut from both ends |
| JsString.TrimEmptyIffBlank | src/pages/AssistantPage.tsx:52-53 | Trimming gives the empty string exactly when the input is all whitespace |
| JsString.TrimIdempotent | src/pages/AssistantPage.tsx:52 | Trimming a trimmed text changes nothing |
| JsString.NatToDecimal | src/lib/api.ts:160-161 | A number renders as a non-empty run of decimal digits with no leading zero |
| JsString.NatToDecimalRoundTrip | src/lib/api.ts:160-161 | Reading the rendered digits back yields the number |
| JsString.IntToDecimal | src/lib/api.ts:160-161 | `n.toString()` for an integer: a minus sign for a negative value, then the digits of its magnitude |
| JsString.IntToDecimalSign | src/lib/api.ts:160-161 | A rendering is never empty and starts with "-" exactly when the integer is negative |
| JsString.IntToDecimalInjective | src/lib/api.ts:160-161 | Distinct integers render as distinct strings |
| Api.BaseUrl | src/lib/api.ts:3 | The base address is `VITE_API_URL` when set and non-empty, else `http://localhost:8000` |
| Api.GetStorageUrl | src/lib/api.ts:187-190 | A path starting with "http" is returned unchanged; any other is appended to the base |
| Api.StorageUrlIdempotent | src/lib/api.ts:187-190 | Resolving twice equals resolving once whenever the base starts with "http" |
| Api.BaseUrlIsAbsolute | src/lib/api.ts:3 | The default base, and any configured one starting with "http", meets that condition |
| Api.StorageUrlNotIdempotentForRelativeBase | src/lib/api.ts:187-190 | With the base "/backend", resolving "/img.png" twice prefixes the base twice |
| Api.StorageUrlIdempotentOnlyIfAbsoluteBase | src/lib/api.ts:187-190 | For every non-empty base not starting with "http", resolving "/" twice differs from resolving it once |
| Api.StorageUrlSchemeCheckIsPrefixOnly | src/lib/api.ts:188 | A path such as "httpdocs/img.png" counts as absolute although it has no "://" |
| Api.TimeRangeCode | src/lib/api.ts:154 | The time range is sent as one of "24h", "7d", "30d", "all" |
| Api.TimeRangeCodeInjective | src/lib/api.ts:154 | Distinct time ranges are sent as distinct values |
| Api.FormData.constructor | src/lib/api.ts:112 | A new form has no entries |
| Api.FormData.Append | src/lib/api.ts:113-115 | `append` adds one entry at the end and keeps the earlier ones |
| Api.HealthRequest | src/lib/api.ts:103-106 | The health check is a GET of `/health` with no query and no body |
| Api.AnalyzeMediaRequest | src/lib/api.ts:108-123 | A POST to `/api/analyze_media` whose form holds `file` and, exactly when a location is given, then `location` with its JSON |
| Api.TestSegmentationRequest | src/lib/api.ts:125-134 | A POST to `/api/test_segmentation` whose form holds only the file |
| Api.ProcessVideoRequest | src/lib/api.ts:136-143 | A POST to `/api/process_video` whose form holds only the file |
| Api.QueryMoraqibRequest | src/lib/api.ts:176-185 | A POST to `/api/moraqib_query` whose form holds only the query text |
| Api.DetectionReportsRequest | src/lib/api.ts:153-166 | A GET of `/api/detection-reports` with exactly `time_range`, `limit`, `offset` in order; each non-negative number's digits read back as that number |
| Api.DetectionReportsDefaults | src/lib/api.ts:154-156 | With no arguments the parameters are `24h`, `100` and `0` |
| Api.DetectionStatsRequest | src/lib/api.ts:168-174 | A GET of `/api/detection-stats` whose only parameter is `time_range`, "24h" by default |
| Api.ReadJson | src/lib/api.ts:104-105 | Other operations return the parsed body whatever the status; only a network failure or a malformed body fails |
| Api.ReadJsonIgnoresStatus | src/lib/api.ts:164-165 | A failed and a successful status with the same body give the same outcome |
| Api.VideoErrorMessage | src/lib/api.ts:147 | The thrown message is the server's non-empty `error`, otherwise "Video processing failed" |
| Api.ProcessVideoResult | src/lib/api.ts:145-150 | Succeeds exactly on an OK status, with the body's bytes; a non-OK status throws the error message |
| Api.VideoFailureCarriesServerMessage | src/lib/api.ts:145-147 | A failed video request whose body names an error throws exactly that message |
| LanguageContext.LanguageProvider.constructor | src/contexts/LanguageContext.tsx:14 | The initial language is Arabic |
| LanguageContext.LanguageProvider.SetLang | src/contexts/LanguageContext.tsx:14 | After `setLang(x)` the language is `x`, so setting it twice is setting it once |
| LanguageContext.LanguageProvider.IsRtl | src/contexts/LanguageContext.tsx:17 | Right-to-left exactly when the language code is "ar" |
| LanguageContext.LanguageProvider.Dir | src/contexts/LanguageContext.tsx:21 | The wrapper's `dir` is "rtl" exactly when right-to-left, else "ltr" |
| LanguageContext.LanguageProvider.T | src/contexts/LanguageContext.tsx:16 | The bound lookup is the current language's table entry |
| LanguageContext.UseLanguage | src/contexts/LanguageContext.tsx:28-34 | Fails with the fixed message outside a provider and returns the provider inside one |
| LanguageContext.SetLangThenLookup | src/contexts/LanguageContext.tsx:14-16 | After a language change the bound lookup gives the new language's entry |
| Header.IsOnline | src/components/Header.tsx:26 | Online exactly when a record is present and its status is "healthy" |
| Header.HealthAfterPoll | src/components/Header.tsx:13-20 | A poll stores the returned record unchanged, or no record when the check failed |
| Header.FailedPollIsOffline | src/components/Header.tsx:17-19 | After a failed poll the header is offline |
| Header.PollOnlineIffHealthy | src/components/Header.tsx:26 | After a successful poll the header is online exactly when the status is "healthy" |
| Header.StatusText | src/components/Header.tsx:62 | The status text is the "online" entry when online, else the "offline" entry |
| Header.Toggled | src/components/Header.tsx:70 | The toggle switches to the other language |
| Header.ToggleTwiceRestores | src/components/Header.tsx:70 | Toggling twice restores the language |
| Header.ToggleLabel | src/components/Header.tsx:75 | The label is "EN" in Arabic and "عربي" in English |
| Header.HeaderState.constructor | src/components/Header.tsx:10 | Before the first poll there is no record and the header is offline |
| Header.HeaderState.FetchHealth | src/components/Header.tsx:13-20 | The stored record is the poll's, and a failed poll leaves the header offline |
| Header.HeaderState.ToggleLanguage | src/components/Header.tsx:70 | The provider's language becomes the other one, and right-to-left flips |
| AssistantPage.SendText | src/pages/AssistantPage.tsx:52 | A non-empty explicit question is sent as it is; otherwise the trimmed input is |
| AssistantPage.NothingToSendIffBlank | src/pages/AssistantPage.tsx:52-53 | Nothing is sent exactly when there is no question and the input is all whitespace |
| AssistantPage.ReplyMessage | src/pages/AssistantPage.tsx:60-72 | An assistant message: the answer and its reports on success, the error text and no reports on failure |
| AssistantPage.Send | src/pages/AssistantPage.tsx:51-76 | One whole send: nothing changes when there is no text; otherwise the question and the reply are appended, the input is cleared and loading is over |
| AssistantPage.SendAppendsQuestionAndReply | src/pages/AssistantPage.tsx:51-76 | An empty send changes nothing; otherwise the log gains the question, then exactly the reply message, earlier messages stay, the input is cleared and loading ends |
| AssistantPage.SendKeepsLogWellFormed | src/pages/AssistantPage.tsx:55-72 | One send keeps questions and replies alternating, with no empty question |
| AssistantPage.SessionOnlyAppends | src/pages/AssistantPage.tsx:56-72 | Over any sequence of typing and sends, the old log stays a prefix of the new one |
| AssistantPage.SessionKeepsLogWellFormed | src/pages/AssistantPage.tsx:51-76 | Over any session from an empty log, the log alternates question and reply and ends with no call in flight |
| AssistantPage.ExampleQueries | src/pages/AssistantPage.tsx:23-36 | Four non-empty example questions per language |
| AssistantPage.ExampleIsSentVerbatim | src/pages/AssistantPage.tsx:201 | Clicking an example sends that question, whatever the input holds |
| AssistantPage.ShownReportIds | src/pages/AssistantPage.tsx:138-146 | The ids of the first five referenced reports, in order, and none without reports |
| AssistantPage.AssistantState.constructor | src/pages/AssistantPage.tsx:40-42 | The log and input start empty and nothing is loading |
| AssistantPage.AssistantState.SetInput | src/pages/AssistantPage.tsx:175 | Typing replaces the input and nothing else |
| AssistantPage.AssistantState.BeginSend | src/pages/AssistantPage.tsx:51-58 | With nothing to send nothing changes; otherwise the question is appended, the input cleared, loading set and the question sent as `query` |
| AssistantPage.AssistantState.FinishSend | src/pages/AssistantPage.tsx:60-75 | One reply is appended and loading ends, on success and on failure |
| AssistantPage.AssistantState.HandleSend | src/pages/AssistantPage.tsx:51-76 | The page state after one send is the one `Send` describes, and a request goes out exactly when there is text to send: the POST of that text as `query` |
| AnalyzePage.AcceptsMime | src/pages/AnalyzePage.tsx:44 | A MIME type is taken exactly when it starts with "image/" or "video/" |
| AnalyzePage.AcceptsMimeExamples | src/pages/AnalyzePage.tsx:44 | "image/png" and "video/mp4" are taken; "image", "application/pdf" and "" are not |
| AnalyzePage.LocationArgument | src/pages/AnalyzePage.tsx:54 | The location is passed exactly when both coordinates are non-empty |
| AnalyzePage.SoldierCountText | src/pages/AnalyzePage.tsx:61 | A present count renders as its digits; an absent one as "undefined" |
| AnalyzePage.AnalyzeNotice | src/pages/AnalyzePage.tsx:58-68 | A detection notice with "count soldiers", a no-detection notice on success without one, and none for an unsuccessful reply |
| AnalyzePage.DetectionNoticeNamesSoldierCount | src/pages/AnalyzePage.tsx:58-62 | A detection of n soldiers is described with exactly n's digits and a space first |
| AnalyzePage.ErrorNotice | src/pages/AnalyzePage.tsx:69-75 | A thrown call gives a destructive notice titled with the error entry |
| AnalyzePage.QuickTestResult | src/pages/AnalyzePage.tsx:86-91 | Only a successful reply with a non-empty overlay gives a result: success, that overlay, no detection |
| AnalyzePage.ResultHeadline | src/pages/AnalyzePage.tsx:242 | The headline is the detection entry exactly when `detection` is true |
| AnalyzePage.ShowsSoldierLine | src/pages/AnalyzePage.tsx:244 | The soldier line is shown exactly when a count is present and positive |
| AnalyzePage.QuickTestResultShowsNoDetection | src/pages/AnalyzePage.tsx:242-244 | A quick-test result reads as no detection and shows no soldier line |
| AnalyzePage.AnalyzeState.constructor | src/pages/AnalyzePage.tsx:26-30 | No file, no result, nothing loading and empty coordinates at first |
| AnalyzePage.AnalyzeState.HandleFileSelect | src/pages/AnalyzePage.tsx:32-34 | The file is stored and the earlier result cleared |
| AnalyzePage.AnalyzeState.HandleDrop | src/pages/AnalyzePage.tsx:41-47 | An accepted file is selected; anything else changes nothing |
| AnalyzePage.AnalyzeState.SetLatitude | src/pages/AnalyzePage.tsx:166 | The latitude is replaced and the longitude kept |
| AnalyzePage.AnalyzeState.SetLongitude | src/pages/AnalyzePage.tsx:179 | The longitude is replaced and the latitude kept |
| AnalyzePage.AnalyzeState.HandleAnalyze | src/pages/AnalyzePage.tsx:49-78 | No file: nothing happens. Otherwise the request is a POST with no query whose form is `file` then, exactly when both coordinates are filled in, `location`; any arrived reply is stored with its notice, a failure keeps the result, and loading ends |
| AnalyzePage.AnalyzeState.HandleQuickTest | src/pages/AnalyzePage.tsx:80-102 | No file: nothing happens. Otherwise only a usable reply replaces the result, a failure shows the error notice, and loading ends |

## Left out

- Network transport: `fetch`, `response.json()` and `response.blob()` are I/O. A reply is an input value, and a request is a `Request` value.
- Server-side behaviour: what ends up in `detections`, `total`, `stats` and `success` is up to the backend. The client passes these through unchecked.
- `JSON.stringify` of the location and the percent-encoding of `URLSearchParams`: the model keeps field names, order and values, not the characters on the wire.
- `String(error)` in an error notice: the error itself is kept, not its browser-specific text.
- Response shapes the client only displays are not modelled field by field: `DetectionReport`, `Stats`, `Report`, `Detection`, `class_breakdown`, `has_camouflage`.
- `Number.prototype.toString` is modelled on integers only. Fractions and the exponent form used from 10^21 up are not modelled.
- The file preview, which a `FileReader` produces asynchronously as a data URL, is left out. So is the `preview` field.
- Scrolling the chat to its end, the header's 30-second polling interval and its cleanup: these are timers and DOM effects. Each poll is one call of `FetchHealth`.
- Concurrency: each handler is one sequential step. React's interleaving of state updates is not modelled, nor is `Promise.all` on the dashboard. The assistant send is split in two (`BeginSend`, `FinishSend`) only to show the loading flag during the call.
- React machinery: context creation, hooks and re-rendering become fields and methods of a class.
- The translation tables are `match` functions over the key type, not `map` values. A key missing from one table would be a missing `match` case, rejected at build time. So both tables list the same keys by construction, and the Dafny function never sees a key outside the key type.
- `HealthResponse.status` is always present, as the client's interface declares it.
- Presentation-only files are left out: `ReportsPage.tsx`, `Dashboard.tsx`, `DetectionCard.tsx`, `Sidebar.tsx`, `StatsCard.tsx`, `App.tsx`, `main.tsx`. So are CSS class choices such as `font-arabic`, and date and coordinate formatting.
