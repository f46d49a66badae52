# CustomChatAI in Dafny

A model of the core of CustomChatAI, a self-hosted chat front end for a
local model runtime (Ollama). The application has a chat dashboard, an
admin console and an OpenAI-compatible API guarded by per-user API keys.
The model covers:

- **Rate limiting** (`rate_limit.dfy`, module `RateLimit`). A fixed-window
  limiter that keeps one `(count, resetAt)` record per key in a class. A
  specification function `Run` mirrors each storage step, including the
  fail-open answer when any step throws.
- **Usage tracking** (`usage.dfy`, module `Usage`). The usage record that
  is appended, with defaults and the derived total, the best-effort store,
  and the four-characters-per-token estimate.
- **The OpenAI-compatible API** (`gateway.dfy`, module `Gateway`). The
  ordered gate in front of both endpoints: bearer header, active key, rate
  limit, `lastUsed` stamp. Also the completions body defaults and
  validation, and the translation of runtime replies and model lists into
  the OpenAI shapes.
- **Chat export** (`export.dfy`, module `ChatExport`). The CSV built row by
  row with quotes doubled, with its field-level round trip, and the JSON
  export.
- **Sending a chat message** (`chat_message.dfy`, module
  `ChatMessageRoute`). Chat titles, history assembly, the ownership check,
  and the order of the database writes around the runtime call.
- **Admin analytics** (`analytics_report.dfy`, module `AdminAnalytics`).
  The join of per-user aggregates with user rows and their defaults, the
  in-place descending sort of both tables, the period counts and the
  seven-day trend.
- **Model management page** (`model_pull.dfy`, module `ModelManagement`).
  The line-buffered reading of a model download's progress stream, and the
  tag-aware "installed" test.
- **API key pages** (`api_keys.dfy`, module `ApiKeyLists`). Key masking,
  the counts, and the create/toggle/delete list updates of the admin page
  and of the user's own page.
- **Chat sidebar** (`chat_sidebar.dfy`, module `ChatSidebar`). The
  case-insensitive search, the empty-state text and the navigation links.
- **Chat dashboard** (`dashboard.dfy`, module `DashboardPage`). The
  state transitions of the dashboard: default model, new chat, delete chat,
  and send message with its provisional message.
- **Embeddable widget** (`widget.dfy`, module `ChatWidget`). Configuration
  defaults, placement, the iframe address and the open/closed state
  machine.
- **Embedded chat page** (`embed_chat.dfy`, module `EmbedChat`). Sending
  a message through the OpenAI-compatible API. It is tied to `Gateway` by
  lemmas showing that the page's request passes the gate's header and body
  checks, and that the runtime's reply text is what the page shows.

`common.dfy` (module `Common`) holds what the others share: `Option`,
JavaScript's `||` fallback on strings, `startsWith`/`includes`/`slice`,
`split`/`join` on a one-character separator with their round trips, and an
order-preserving filter.

Pages are modelled as classes whose fields are the page's React state. Each
handler is a method that takes the outcome of its HTTP request as a
parameter. It states the page's new state for every outcome, and every
field it leaves alone. Routes are methods or functions from their inputs
(session, query, body, database rows, runtime reply) to a response. The
database tables they write are class fields.

## Model

| member | source | states |
|---|---|---|
| RateLimit.CurrentWindow | lib/rateLimit.ts:24-44 | The record checked is the stored one while `now <= resetAt`; a missing record or one whose reset time lies strictly before `now` becomes `(0, now + window)`. |
| RateLimit.Run | lib/rateLimit.ts:15-75 | With no storage error a record is always stored afterwards, and an existing record is never deleted. |
| RateLimit.AdmitIffBelowLimit | lib/rateLimit.ts:46-67 | Without errors, a call is admitted iff the window's count is below the limit. Then the count rises by exactly one and remaining is `limit - count - 1 >= 0`. Otherwise the answer is `{false, 0}` and the record is not incremented. |
| RateLimit.FreshKey | lib/rateLimit.ts:24-32 | An unseen key gets a record `(0, now + window)`, is admitted with `limit - 1` remaining, and stores count 1. |
| RateLimit.ResetOnlyAfterExpiry | lib/rateLimit.ts:35-44 | A call at exactly `resetAt` stays in the old window. Only a later call starts a window ending at `now + window`. |
| RateLimit.CountWithinLimit | lib/rateLimit.ts:47-62 | No call, with or without storage errors, stores a count above the limit. |
| RateLimit.FailsOpen | lib/rateLimit.ts:68-75 | Every decision is the error-free decision or `{true, limit}`. A denial never comes from a storage error. A failed lookup allows whatever was stored. |
| RateLimit.Replay | lib/rateLimit.ts:12-76 | Successive calls for one key yield one decision per call. |
| RateLimit.ReplayWithinWindow | lib/rateLimit.ts:47-67 | Within one window, successive calls report remaining `limit - count - 1`, then one less each time down to 0; after that every call is denied. |
| RateLimit.FreshKeySequence | lib/rateLimit.ts:24-67 | A fresh key's first call is allowed with `limit-1` left and opens the window. Later calls inside that window report `limit-2, …, 0` and then denial. |
| RateLimit.WindowScenario | lib/rateLimit.ts:35-67 | Worked example, limit 3, window 1000: admitted with 2, 1, 0, then denied, then admitted with 2 after the window expires. |
| RateLimit.RateLimiter.Default | lib/rateLimit.ts:3-10 | Without configuration the limit is 100 requests and the window 60000 ms, with no records. |
| RateLimit.RateLimiter.constructor | lib/rateLimit.ts:3-10 | A configured limiter starts with no records. |
| RateLimit.RateLimiter.CheckRateLimit | lib/rateLimit.ts:12-76 | The decision and the key's new record are those of `Run`. Records of every other key are unchanged. No stored count exceeds the limit. |
| Usage.UsageRecord | lib/analytics.ts:15-33 | Omitted token counts become 0, `totalTokens = promptTokens + completionTokens`, and userId, model, responseTimeMs and endpoint are copied. |
| Usage.DefaultsAndTotal | lib/analytics.ts:15-21 | Omitting both counts records zero tokens throughout; 10 and 5 give a total of 15. |
| Usage.UsageStore.TrackUsage | lib/analytics.ts:12-38 | A successful write appends exactly one record. A failing write is swallowed and appends nothing. |
| Usage.TrackingKeepsTotalsConsistent | lib/analytics.ts:20-33 | If every stored record has total = prompt + completion, that still holds after tracking, whether the write succeeds or not. |
| Usage.EstimateTokens | lib/analytics.ts:41-43 | The estimate `e` satisfies `4e - 4 < length <= 4e` for non-empty text, and is 0 exactly for the empty text. |
| Usage.EstimateIsCeiling | lib/analytics.ts:42 | The estimate is the least `e` with `length <= 4e`. |
| Usage.EstimateMonotone | lib/analytics.ts:42 | A longer text never gets a smaller estimate. |
| Gateway.BearerToken | app/api/v1/chat/completions/route.ts:9-17 | A key is read iff the header is present and starts with exactly `Bearer `, and then the header is `Bearer ` followed by the key. |
| Gateway.BearerRoundTrip | app/api/v1/chat/completions/route.ts:17 | `Bearer <key>` reads back as `<key>`. |
| Gateway.LowercaseSchemeRejected | app/api/v1/chat/completions/route.ts:10 | The scheme is case-sensitive: `bearer <key>` is refused. |
| Gateway.Gate | app/api/v1/chat/completions/route.ts:9-48 | A missing or malformed header gives 401 "Missing or invalid API key". A throwing key lookup gives 500 "Internal server error". An unknown or inactive key gives 401 "Invalid API key". None of these touches the limiter or the keys. Otherwise the limiter runs on the key. A denial gives 429 with remaining 0 and leaves the keys alone. After admission a throwing `lastUsed` write gives 500, with the slot spent and the keys unchanged. Otherwise admission stamps only that key's `lastUsed` and passes on the limiter's remaining count. |
| Gateway.CheckCompletionBody | app/api/v1/chat/completions/route.ts:51-59 | The body is refused with 400 "Invalid messages format" iff `messages` is missing or not an array. Otherwise model defaults to `llama3.2:3b`, stream to false, and the messages are forwarded unchanged. |
| Gateway.ToOpenAICompletion | app/api/v1/chat/completions/route.ts:102-122 | Exactly one choice, with index 0 and finish reason "stop". Its role defaults to "assistant" and its content to "". The object is "chat.completion" for the requested model, and usage is all zeros. |
| Gateway.CompletionCarriesReply | app/api/v1/chat/completions/route.ts:110-113 | Non-empty runtime role and content reach the client unchanged. No message gives an empty assistant turn. |
| Gateway.CompletionsAfterGate | app/api/v1/chat/completions/route.ts:50-136 | A body that is not JSON gives 500, and an invalid body 400. A runtime failure gives 500. A stream request gives an event stream, and otherwise a completion; both carry the limiter's remaining count. |
| Gateway.PostCompletions | app/api/v1/chat/completions/route.ts:6-137 | Every gate outcome is stated with its new key table and limiter store. A refusal is the route's response. After admission the key is stamped and the response is the post-gate one, so a body refused after admission has still spent its slot. |
| Gateway.ToOpenAIModels | app/api/v1/models/route.ts:71-79 | One OpenAI model per runtime model, same order, with id and root the name, owner "ollama", no permissions and no parent. Absent `models` gives an empty list. |
| Gateway.ModelIdsAreNames | app/api/v1/models/route.ts:72-77 | Each entry's id and root are the runtime model's name. |
| Gateway.ModelsAfterGate | app/api/v1/models/route.ts:50-99 | A runtime error status gives 500 "Failed to fetch models". An unreachable runtime gives 500 "Internal server error". A reply gives a "list" object with the limiter's remaining count. |
| Gateway.GetModels | app/api/v1/models/route.ts:6-100 | The same gate, with the same key table and limiter store on every path, precedes the listing. After admission the key is stamped and the response is the listing step's. |
| ChatExport.EscapeQuotes | app/api/chat/export/route.ts:51 | Escaping never shortens the text. |
| ChatExport.EscapeRoundTrip | app/api/chat/export/route.ts:51 | Un-doubling the escaped content recovers the message text. |
| ChatExport.EscapedQuotesPaired | app/api/chat/export/route.ts:51-52 | In an escaped field quotes come in adjacent pairs, so the closing quote of the field is never ambiguous. |
| ChatExport.CsvRowsAppend | app/api/chat/export/route.ts:49-53 | The rows of `a + b` are the rows of `a` followed by those of `b`. |
| ChatExport.RowShape | app/api/chat/export/route.ts:52 | Each row opens with a quote, ends with a quote and LF, and its content field un-escapes to the message text. |
| ChatExport.RowsShape | app/api/chat/export/route.ts:47-52 | There are no rows exactly when there are no messages. Otherwise the rows open with the first message's row and end with a line feed. |
| ChatExport.BuildCsv | app/api/chat/export/route.ts:47-53 | The loop builds the header `Timestamp,Role,Content\n` followed by one row per message in order. |
| ChatExport.ToJsonExport | app/api/chat/export/route.ts:63-74 | The JSON document keeps the chat's id, title, model, `createdAt` and `updatedAt`, and per message its role, content and timestamp, in order. |
| ChatExport.FindOwnedChat | app/api/chat/export/route.ts:27-39 | A found chat has the id and belongs to the user. None means no chat in the list does. |
| ChatExport.ExportChat | app/api/chat/export/route.ts:7-89 | No session gives 401 and a missing chatId 400. A throwing lookup gives 500 "Internal server error". A chat not owned gives 404. Format "csv" gives the CSV file `chat-<id>.csv`; any other format, or none, gives `chat-<id>.json`. |
| ChatExport.NonCsvFormatsAreJson | app/api/chat/export/route.ts:17 | An absent format or any format other than "csv" selects JSON. |
| ChatMessageRoute.Title | app/api/chat/message/route.ts:44 | The first 50 characters, followed by "..." exactly when the message is longer than 50. |
| ChatMessageRoute.TitleBounds | app/api/chat/message/route.ts:44 | A title has at most 53 characters and starts with the message's first 50. It equals the message iff the message fits in 50, or is 53 long and already ends in "...". |
| ChatMessageRoute.History | app/api/chat/message/route.ts:73-82 | The turns sent are the prior messages' role and content in order, then the new user turn. |
| ChatMessageRoute.MessagesOf | app/api/chat/message/route.ts:27-34 | A chat's listed messages are exactly the stored rows carrying its id. |
| ChatMessageRoute.MessagesOfInOrder | app/api/chat/message/route.ts:27-34 | The listed messages keep the order in which they were stored. |
| ChatMessageRoute.MessagesOfAppend | app/api/chat/message/route.ts:54-60 | Storing a message appends it to its own chat's list and leaves every other chat's list alone. |
| Common.AssistantContent | app/api/chat/message/route.ts:95-96 | The stored or shown reply is the model's non-empty content, or "No response from AI"; never empty. The embedded page applies the same rule (app/embed/chat/page.tsx lines 73-74). |
| ChatMessageRoute.ChatStore.constructor | app/api/chat/message/route.ts:21-51 | The store starts with the given chats and messages. |
| ChatMessageRoute.ModelOf | app/api/chat/message/route.ts:16 | The model defaults to `llama3.2:3b` only when the body leaves `model` out; any name sent, the empty one included, is used as is. |
| ChatMessageRoute.ChatStore.PostMessage | app/api/chat/message/route.ts:7-134 | No session gives 401 and writes nothing. A body that is not JSON gives 500 and writes nothing. A chat not owned gives 404 and writes nothing. The model is `ModelOf` the body. A missing message fails before any write. A new chat is created with the derived title. The user message is stored before the runtime call and stays when the runtime fails. The assistant message is stored only after a reply. The title is rewritten only when the chat had no prior messages. The chat is stamped `updatedAt` last. Each throwing write gives 500 and keeps exactly the writes before it. |
| ChatMessageRoute.ConversationGrowsByTwo | app/api/chat/message/route.ts:54-105 | After a successful call the chat's own message list has grown by exactly the user's message followed by the assistant's. |
| AdminAnalytics.FindUser | app/api/admin/analytics/route.ts:94 | A found user has the id. None means no user row has it. |
| AdminAnalytics.JoinUser | app/api/admin/analytics/route.ts:93-105 | A missing user gives name "N/A" and email "". Empty name or email get the same fallbacks. Null token sums become 0. Id and request count are the group's. |
| AdminAnalytics.JoinAll | app/api/admin/analytics/route.ts:93-105 | One joined row per group, in group order. |
| AdminAnalytics.FormatModels | app/api/admin/analytics/route.ts:126-131 | One row per model group, with its model and count, and a null token sum read as 0. |
| AdminAnalytics.CountSince | app/api/admin/analytics/route.ts:36-42 | The period's request count never exceeds the number of records, and is zero exactly when no record is in the period. |
| AdminAnalytics.CountBetween | app/api/admin/analytics/route.ts:146-153 | A day's count never exceeds the number of records, and is zero exactly when no record falls in `[lo, hi)`. |
| AdminAnalytics.CountSinceSplit | app/api/admin/analytics/route.ts:36-42 | The records since `lo` are those in `[lo, hi)` plus those since `hi`. |
| AdminAnalytics.UsersSince | app/api/admin/analytics/route.ts:23-33 | A user is active iff some record of theirs lies in the period. |
| AdminAnalytics.ActiveUsersAtMostRequests | app/api/admin/analytics/route.ts:23-42 | There are never more active users than requests in the period. |
| AdminAnalytics.CountBetweenSplit | app/api/admin/analytics/route.ts:146-153 | Counts over adjacent day ranges add up. |
| AdminAnalytics.DaysFrom | app/api/admin/analytics/route.ts:141-160 | Entry `i` is the day starting `i` days after the start, with the number of records in `[start of day, start of next day)`. |
| AdminAnalytics.DailyTrends | app/api/admin/analytics/route.ts:134-160 | Exactly 7 entries, oldest first, the last one today, each one day after the previous. |
| AdminAnalytics.DaysFromTotal | app/api/admin/analytics/route.ts:141-160 | The trend entries add up to the count over the whole range they span. |
| AdminAnalytics.TrendsCoverLastWeek | app/api/admin/analytics/route.ts:134-160 | Every request from midnight six days ago to the end of today is counted in exactly one trend entry. |
| AdminAnalytics.Swap | app/api/admin/analytics/route.ts:169-170 | Exchanging two rows keeps the same rows. |
| AdminAnalytics.SortByCountDescending | app/api/admin/analytics/route.ts:169-170 | The in-place sort leaves the array ordered by request count, largest first, and a permutation of the original. |
| AdminAnalytics.SortedByCount | app/api/admin/analytics/route.ts:169-170 | The sorted table is ordered by descending request count and is a permutation of its input. |
| AdminAnalytics.GetAnalytics | app/api/admin/analytics/route.ts:7-180 | A session without a user id, or whose role is not exactly `ADMIN`, gets 401. For an admin, a database failure gives 500. Otherwise: days defaults to 30 and is echoed as periodDays; active users and total requests count the period starting `days` days before now; both tables are the joined rows sorted by descending count; the trend is the seven days ending today. |
| ModelManagement.IsModelInstalled | app/admin/models/page.tsx:190-195 | A name is installed iff some installed model is named exactly so, or starts with the name followed by ":". |
| ModelManagement.TagMatching | app/admin/models/page.tsx:189-194 | "phi3" matches "phi3:latest"; "llama3" does not match "llama3.2". |
| ModelManagement.ConcatSnoc | app/admin/models/page.tsx:107 | Receiving one more chunk appends it to the text received. |
| ModelManagement.ProgressOf | app/admin/models/page.tsx:118-131 | A status message shows its status for the model. Sizes are shown iff both completed and total are present and non-zero, and then they are the message's. |
| ModelManagement.Step | app/admin/models/page.tsx:111-135 | A blank, unparseable or status-less line leaves the progress alone. Any other line shows its own progress. |
| ModelManagement.Skipped | app/admin/models/page.tsx:112-117 | A line moves the progress only if it is not blank, parses, and has a non-empty status. |
| ModelManagement.ProgressOver | app/admin/models/page.tsx:111-135 | After any lines, the progress is the starting one or belongs to the model being pulled. |
| ModelManagement.ProgressOverAppend | app/admin/models/page.tsx:102-137 | Progress over two batches of lines is progress over the first, then the second. |
| ModelManagement.SkippedLineIsInvisible | app/admin/models/page.tsx:112-135 | A skipped line does not affect the progress, and later lines are still processed. |
| ModelManagement.LastStatusWins | app/admin/models/page.tsx:118-131 | The progress shown is that of the last line with a status. |
| ModelManagement.AllSkipped | app/admin/models/page.tsx:112 | Lines that are all skipped leave the progress as it was. |
| ModelManagement.ChunkStep | app/admin/models/page.tsx:107-109 | Splitting the buffer plus a chunk keeps all received text accounted for. |
| ModelManagement.ApplyLines | app/admin/models/page.tsx:111-136 | The inner loop's progress is the progress over the chunk's complete lines in order. |
| ModelManagement.ReadPullStream | app/admin/models/page.tsx:102-137 | The processed lines, each followed by LF, plus the buffer are exactly the text received. The buffer holds no LF, so a trailing partial line is never processed. No processed line holds an LF. The progress is that over the processed lines. |
| ModelManagement.ModelsPage.constructor | app/admin/models/page.tsx:35-43 | The page starts loading, with no models, no download and no banner. |
| ModelManagement.ModelsPage.FetchModels | app/admin/models/page.tsx:59-71 | Models are replaced only by an ok reply, with an absent list read as empty. Loading ends either way. |
| ModelManagement.ModelsPage.HandlePullModel | app/admin/models/page.tsx:73-151 | A refused request shows its error or "Failed to pull model". A failure or broken stream shows "Failed to pull model". A complete stream shows "Model <name> downloaded successfully!" and clears the custom name. Progress is cleared and pulling ends in every case. |
| ModelManagement.ModelsPage.HandleDeleteModel | app/admin/models/page.tsx:153-175 | Unconfirmed, nothing changes. An ok reply shows its message and a refusal its error. A failure shows "Failed to delete model". |
| Common.OrDefault | public/widget.js:8-12 | `s \|\| d` on an optional string: the value when present and non-empty, else the fallback. |
| Common.Take | app/api/chat/message/route.ts:44 | `slice(0, n)` keeps the first `min(n, length)` characters as a prefix. |
| Common.Split | app/admin/models/page.tsx:108 | `split` on one character always yields at least one piece. |
| Common.SplitPiecesLackSeparator | app/admin/models/page.tsx:108 | No piece of a split contains the separator. |
| Common.SplitJoin | app/admin/models/page.tsx:108-109 | Joining the pieces of a split with the separator gives back the text. |
| Common.JoinSplit | public/widget.js:96 | Splitting a join of pieces free of the separator gives back the pieces. |
| Common.Filter | app/admin/api-keys/page.tsx:95 | The kept elements are exactly the input's elements that pass the test. |
| Common.FilterIsSubsequence | components/ChatSidebar.tsx:34 | Filtering keeps the order of the elements it keeps. |
| Common.CountSplits | app/admin/api-keys/page.tsx:172-180 | Elements passing a test and elements failing it add up to the whole list. |
| ApiKeyLists.MaskApiKey | app/admin/api-keys/page.tsx:106-109 | A key of at most 8 characters is shown as is. A longer one is its first 4, "...", and its last 4. |
| ApiKeyLists.MaskRevealsLittle | app/admin/api-keys/page.tsx:106-109 | The mask has at most 11 characters. It equals the key iff the key has at most 8 characters, or is an 11-character key with "..." in the middle. |
| ApiKeyLists.KeyPreview | app/dashboard/keys/page.tsx:267 | The first 20 characters of the key, then "...". |
| ApiKeyLists.SetActive | app/admin/api-keys/page.tsx:65-70 | Only entries with the id get the new status. Every other entry and field is unchanged, and the order is kept. |
| ApiKeyLists.ToggleTwiceRestores | app/admin/api-keys/page.tsx:65-70 | When every entry with the id has status `current`, setting it to `!current` and then back restores the list. |
| ApiKeyLists.RemoveKey | app/admin/api-keys/page.tsx:95 | Exactly the entries with the id are removed. |
| ApiKeyLists.RemoveKeepsOrder | app/dashboard/keys/page.tsx:83 | The remaining keys keep their order. |
| ApiKeyLists.ActivePlusInactive | app/admin/api-keys/page.tsx:164-180 | Active count plus inactive count is the total count. |
| ApiKeyLists.ToggleText | app/admin/api-keys/page.tsx:71-74 | The banner says "activated" iff the new status is active. |
| ApiKeyLists.AdminKeysPage.constructor | app/admin/api-keys/page.tsx:25-27 | The page starts loading with no keys and no banner. |
| ApiKeyLists.AdminKeysPage.FetchAllApiKeys | app/admin/api-keys/page.tsx:43-55 | The list is replaced only by an ok reply. Loading ends either way. |
| ApiKeyLists.AdminKeysPage.HandleToggleActive | app/admin/api-keys/page.tsx:57-82 | An ok reply flips the key's status in the list and shows the matching banner. A failure shows "Failed to update API key". A non-ok reply changes nothing. |
| ApiKeyLists.AdminKeysPage.HandleDeleteKey | app/admin/api-keys/page.tsx:84-104 | Confirmed and ok, the key is removed and "API key deleted successfully" is shown. A failure shows "Failed to delete API key". Otherwise nothing changes. |
| ApiKeyLists.UserKeysPage.constructor | app/dashboard/keys/page.tsx:21-25 | The page starts loading with no keys, no modal, an empty name and no created key. |
| ApiKeyLists.UserKeysPage.FetchApiKeys | app/dashboard/keys/page.tsx:39-51 | The list is replaced only by an ok reply. Loading ends either way. |
| ApiKeyLists.UserKeysPage.HandleCreateKey | app/dashboard/keys/page.tsx:53-70 | The request is named after the input, or "API Key" when it is empty. On success the new key is prepended, shown as created, and the name input is cleared. Otherwise nothing changes. |
| ApiKeyLists.UserKeysPage.HandleDeleteKey | app/dashboard/keys/page.tsx:72-88 | Only a confirmed, ok delete removes exactly that key. |
| ApiKeyLists.UserKeysPage.HandleToggleActive | app/dashboard/keys/page.tsx:90-108 | Only an ok reply flips that key's status. |
| ChatSidebar.LowerChar | components/ChatSidebar.tsx:35 | ASCII upper-case letters are lowered. Every other character is kept. |
| ChatSidebar.Lower | components/ChatSidebar.tsx:35 | Lowering keeps the length, maps each character, and leaves no upper-case ASCII letter. |
| ChatSidebar.LowerIdempotent | components/ChatSidebar.tsx:35 | Lowering twice is lowering once. |
| ChatSidebar.FilterChats | components/ChatSidebar.tsx:34-36 | A chat is shown iff its lowered title contains the lowered search term. |
| ChatSidebar.FilterChatsKeepsOrder | components/ChatSidebar.tsx:34 | The shown chats keep their order. |
| ChatSidebar.EmptySearchShowsAll | components/ChatSidebar.tsx:34-36 | An empty search shows every chat. |
| ChatSidebar.Matches | components/ChatSidebar.tsx:34-36 | The empty search term matches every title. |
| ChatSidebar.SearchIgnoresCase | components/ChatSidebar.tsx:35 | Searching for a term or its lower-case form shows the same chats. |
| ChatSidebar.EmptyStateText | components/ChatSidebar.tsx:76-78 | Some text appears iff nothing is shown: "No chats found" iff a term was typed, else "No chats yet". |
| ChatSidebar.NoChatsYetMeansNone | components/ChatSidebar.tsx:34-78 | With no search, "No chats yet" appears iff there are no chats. |
| ChatSidebar.NavLinks | components/ChatSidebar.tsx:118-137 | The API keys and API docs links are always present. The admin link is present iff the role is "ADMIN". |
| DashboardPage.DefaultModel | app/dashboard/page.tsx:48-52 | A selected model stays. With none selected, the first available model is chosen, if any. |
| DashboardPage.DefaultModelSettles | app/dashboard/page.tsx:48-52 | Choosing the default again changes nothing. |
| DashboardPage.RemoveChat | app/dashboard/page.tsx:122 | Exactly the chats with the id are removed. |
| DashboardPage.RemoveChatKeepsOrder | app/dashboard/page.tsx:122 | The remaining chats keep their order. |
| DashboardPage.DropLast | app/dashboard/page.tsx:164 | `slice(0, -1)`: the list without its last message. |
| DashboardPage.Dashboard.constructor | app/dashboard/page.tsx:27-32 | No chats, no current chat, no messages, no models, not loading. |
| DashboardPage.Dashboard.ChooseDefaultModel | app/dashboard/page.tsx:48-52 | The selected model becomes the default choice. Nothing else changes. |
| DashboardPage.Dashboard.FetchAvailableModels | app/dashboard/page.tsx:66-77 | An ok reply replaces the models. A failure empties the list. A non-ok reply keeps it. |
| DashboardPage.Dashboard.FetchChats | app/dashboard/page.tsx:54-64 | Chats are replaced only by an ok reply. |
| DashboardPage.Dashboard.HandleSelectChat | app/dashboard/page.tsx:79-94 | The chat becomes current. Its messages replace the list on an ok reply. |
| DashboardPage.Dashboard.HandleNewChat | app/dashboard/page.tsx:96-113 | The request carries the selected model. On success the new chat is prepended and becomes current, and the messages are cleared. Otherwise nothing changes. |
| DashboardPage.Dashboard.HandleDeleteChat | app/dashboard/page.tsx:115-131 | On success the chat is removed. The current chat and messages are cleared only if it was current. Otherwise nothing changes. |
| DashboardPage.Dashboard.HandleSendMessage | app/dashboard/page.tsx:133-186 | The provisional user message is appended first. On success it is replaced by the server's and the assistant's reply follows, a net gain of two. The current chat is taken from the reply only when none was set. On failure the provisional message stays. Loading ends either way. |
| ChatWidget.PlacementOf | public/widget.js:31-32 | Anchored to the bottom iff the position contains "bottom", and to the right iff it contains "right". |
| ChatWidget.PlacementExamples | public/widget.js:31-32 | The default "bottom-right" anchors bottom right; "top-left" anchors top left. |
| ChatWidget.Query | public/widget.js:96 | The query is the three parameters `userKey=`, `theme=`, `model=` joined by "&", unencoded. |
| ChatWidget.IframeSrc | public/widget.js:96 | The iframe address is the base URL, "/embed/chat?", then the query. |
| ChatWidget.QueryReadsBack | public/widget.js:96 | Values without "&" split back into exactly the three parameters. |
| ChatWidget.Widget.constructor | public/widget.js:6-18 | Missing or empty settings fall back to the page origin, "light", "llama3", "bottom-right" and "#2563eb". The widget starts closed with no messages. |
| ChatWidget.Widget.Open | public/widget.js:127-131 | The widget is open and shows the close label. |
| ChatWidget.Widget.Close | public/widget.js:133-137 | The widget is closed and shows the chat label. |
| ChatWidget.Widget.Toggle | public/widget.js:119-125 | The open state flips. |
| ChatWidget.Widget.KeyDown | public/widget.js:112-116 | Escape closes the widget only when it is open. Any other key, or Escape while closed, changes nothing. |
| ChatWidget.AutoInitialize | public/widget.js:144-166 | A widget is created iff a script element carries a non-empty key attribute. It takes its settings from the attributes, starts closed with no messages, and its iframe address is built from those settings. |
| EmbedChat.RequestTurns | app/embed/chat/page.tsx:57-63 | The turns sent are the earlier messages' role and content in order, then the new user turn. |
| EmbedChat.RequestAccepted | app/embed/chat/page.tsx:49-64 | The gate reads the page's key back from its header. The body passes validation with the page's model, the conversation as sent, and no streaming. |
| EmbedChat.RequestFor | app/embed/chat/page.tsx:49-64 | The request carries the key behind `Bearer `, the page's model, the conversation with the new user turn last, and no stream flag. |
| EmbedChat.FirstContent | app/embed/chat/page.tsx:74 | A content is read iff the reply has a first choice. |
| EmbedChat.ReplyReachesPage | app/embed/chat/page.tsx:73-74 | From the runtime to the page: a non-empty runtime reply is shown as is, and a missing or empty one shows "No response from AI". |
| EmbedChat.EmbedChatPage.constructor | app/embed/chat/page.tsx:16-22 | Theme defaults to "light" and model to "llama3". No messages, not loading, no error. |
| EmbedChat.EmbedChatPage.HandleSendMessage | app/embed/chat/page.tsx:32-89 | Without a key, only the error "Missing API key" is set and nothing is sent. Otherwise the error is cleared and the user message appended. The request carries the earlier conversation and the new turn. A reply appends the assistant message. A refusal keeps the user message and shows the server's error or "Failed to get response". A failure shows its message or "An error occurred". Loading ends. |

## Left out

- Database access, NextAuth sessions and redirects. Query results are
  inputs and writes are updates of class fields. The session is an
  optional user id or role. A throwing database call is a fault input
  where a route catches it: the gate's key lookup and `lastUsed` write,
  the export lookup, each of the chat-message route's six calls, and one
  flag for the analytics queries.
- ChatMessageRoute.ChatStore.PostMessage: one clock reading `now` stands
  for the whole request. The schema's own timestamping is not part of
  this model, so a new chat's `updatedAt` starts at `now` and only the
  explicit stamp changes it. A runtime reply whose body is not JSON
  counts as an unreachable runtime; both give the same 500.
- Prisma's `groupBy`, `count` and `aggregate`. Per-user and per-model
  aggregates are inputs; the period counts are defined over the raw
  records.
- Concurrency. The limiter's read-check-increment race and stale React
  closures are out of scope; every call is sequential.
- Dates and clocks. `now`, today's midnight and all generated ids are
  parameters. Calendar arithmetic is whole days of 86400000 ms, so
  daylight-saving shifts are not modelled. ISO and locale formatting and
  the `created` timestamps are not modelled.
- Floating point. Percent, average and `formatBytes` rounding, and
  `Math.round` of averages, are not modelled.
- `parseInt` of the limiter configuration and of `days` (NaN and partial
  numbers). The limit and window are natural numbers and `days` an
  integer. The `X-RateLimit-Limit` header is not modelled.
- Network and streaming. Every `fetch` is an outcome parameter. The
  streamed passthrough of `stream: true` is a bare event-stream marker.
  `TextDecoder` and chunk boundaries inside multi-byte characters are not
  modelled. `JSON.parse` is a parameter function from a line to an
  optional message.
- ModelManagement.ModelsPage.HandlePullModel: states only the page's
  state after the download ends. The progress shown while chunks arrive
  is stated by `ReadPullStream`. A read error part-way through is a single
  `cutOff` flag after the chunks that did arrive.
- The refresh calls after actions (`fetchModels()`, `fetchChats()`) are
  separate methods and are not chained.
- `setTimeout` clearing of banners, `confirm()` (a boolean input), and
  clipboard copying.
- Text. Strings are sequences of characters, not UTF-16 code units.
  `toLowerCase` lowers ASCII letters only. `trim` uses the JavaScript
  white-space set.
- AdminAnalytics.SortByCountDescending: JavaScript's sort is stable; the
  model states order and permutation but not stability.
- The DOM: the widget's styles, button rendering and iframe element, the
  embed page's `dark` class and the sidebar's highlight of the current
  chat. Only placement, labels, the iframe
  address and the state are modelled.
- Markdown rendering, static documentation pages and the thin Prisma CRUD
  routes are not part of this model.
