# fin-guru-glow, modelled in Dafny

A model of the logic at the centre of the fin-guru-glow personal-finance coach,
with proofs about it. The model has three parts:

- **Browser pages.**
  - The monthly budget planner: ledgers, totals, leftover, chart and month key.
  - One expense row of the planner.
  - The chat page's per-avatar conversation state.
  - The daily notification de-duplicator.
  - The onboarding survey.
- **The `ai-chat` edge function.** It proxies the chat page to the completion API.
- **The Python retrieval backend:**
  - the retrieval engine: query rewriting, query expansion, persona-filtered scoring with de-duplication, sorting and the answer prompt;
  - its HTTP front: the regular-expression guardrail, the refusal, source mapping and error mapping;
  - the offline ingestion script that builds the chunk file.

External services are parameters of the operations that use them:

- **Parameters:**
  - the completion and embedding APIs (`Api`, the `embed` function, `upstream`);
  - the database rows;
  - the browser's storage and clock;
  - the parsed files of the data directory.
- **Call traces.** Operations that call the model API return the calls they made, in order. This shows which calls happen on each path. For example:
  - a request the guardrail refuses makes no call;
  - lite mode embeds only the standalone question.

Files and modules:

| file | module | models |
|---|---|---|
| wrappers.dfy | Wrappers | `Option`, `Result`, `Min`, `Max` |
| text.dfy | Text | whitespace trimming (JavaScript `trim`, Python `strip`), ASCII lower-casing, substring search, `split` and `join`, decimal digits |
| corpus.dfy | Corpus | the chunk record shared by the ingestion script and the engine |
| budget_row.dfy | BudgetRow | src/components/tools/BudgetRow.tsx |
| budget.dfy | Budget | src/pages/Tools.tsx |
| chat.dfy | ChatScreen | src/pages/Chat.tsx |
| notifications.dfy | Notifications | src/services/NotificationService.ts, src/lib/newsContent.ts |
| ai_chat.dfy | AiChat | supabase/functions/ai-chat/index.ts |
| rag_engine.dfy | RagEngine | fin_rag_backend/rag_engine.py |
| server.dfy | RagServer | fin_rag_backend/server.py |
| ingest.dfy | Ingest | fin_rag_backend/ingest.py |
| survey.dfy | Survey | src/pages/Survey.tsx |

Code that changes state step by step is modelled as imperative Dafny, proved against specification functions:

- the planner, chat page, notification service and survey are classes;
- the history-loading loop, the `contents` builder, the retrieval loops, the ingestion loops and the engine's `chat` are methods with loops.

Pure decision logic is modelled as functions: the guardrail, the leftover, the segment, the reply extraction and the edge function's handler.

## Model

| member | source | states |
|---|---|---|
| BudgetRow.ChangeLabel | src/components/tools/BudgetRow.tsx:21 | editing the label replaces the label and keeps the amount |
| BudgetRow.ChangeAmount | src/components/tools/BudgetRow.tsx:30 | editing the amount keeps the label and always stores a number: NaN becomes 0, any other number is kept |
| BudgetRow.DisplayAmount | src/components/tools/BudgetRow.tsx:29 | the box is blank exactly for 0 and NaN, and otherwise shows the stored amount |
| BudgetRow.DisplayRoundTrip | src/components/tools/BudgetRow.tsx:29-30 | re-entering what the box shows keeps the amount that counts towards totals; a NaN amount becomes 0 |
| Budget.TotalAppend | src/pages/Tools.tsx:51-58 | the total of two ledgers concatenated is the sum of their totals |
| Budget.TotalPermutation | src/pages/Tools.tsx:51-58 | a ledger's total does not depend on the order of its rows |
| Budget.Leftover | src/pages/Tools.tsx:59-62 | leftover is never negative, is at least income minus all obligations, and is one of the two |
| Budget.ChartData | src/pages/Tools.tsx:64-72 | exactly four slices, in the order Fixed, Variable, Savings, Leftover, each holding its value |
| Budget.ChartSum | src/pages/Tools.tsx:59-72 | the slices add up to the income when it covers the obligations, and to the obligations otherwise |
| Budget.Appended | src/pages/Tools.tsx:94-95 | adding a row appends one blank row after the unchanged rows and leaves the total unchanged |
| Budget.ReplaceAt | src/pages/Tools.tsx:146-148 | editing row `idx` replaces only that position; the length and every other row are unchanged |
| Budget.RemoveAt | src/pages/Tools.tsx:149-151 | removing row `idx` drops exactly that row; the rows before keep their places, the rows after move up one, and the length falls by one |
| Budget.ReplaceAtTotal | src/pages/Tools.tsx:146-148 | after an edit, the total changes by the new row's amount minus the old row's amount |
| Budget.RemoveAtTotal | src/pages/Tools.tsx:149-151 | a removal takes exactly the removed row's amount off the total |
| Budget.RemoveAtMultiset | src/pages/Tools.tsx:149-151 | the remaining rows are the old rows minus the removed one, as a multiset |
| Budget.MonthKeyRoundTrip | src/pages/Tools.tsx:18-19 | the `YYYY-MM` key reads back to its year and 1-based month (the month is always two digits) |
| Budget.MonthKeyLength | src/pages/Tools.tsx:18-19 | for a four-digit year the key is seven characters, with the dash at index 4 |
| Budget.Planner.constructor | src/pages/Tools.tsx:25-29 | initial state: the current month, zero income and savings, the Rent row and the Food row |
| Budget.Planner.SelectMonth | src/pages/Tools.tsx:117 | changes only the selected month |
| Budget.Planner.Load | src/pages/Tools.tsx:36-49 | a record's fields are copied, with a non-array ledger read as empty; a month with no record resets to the defaults |
| Budget.Planner.SetIncome | src/pages/Tools.tsx:128 | the income becomes `Number(value) \|\| 0`; nothing else changes |
| Budget.Planner.SetSavingsGoal | src/pages/Tools.tsx:194 | the savings goal becomes `Number(value) \|\| 0`; nothing else changes |
| Budget.Planner.Add | src/pages/Tools.tsx:94-95 | appends a blank row to one ledger; the other ledger and both totals are unchanged |
| Budget.Planner.Edit | src/pages/Tools.tsx:146-148 | replaces one row of one ledger; the other ledger and the other fields are unchanged |
| Budget.Planner.Remove | src/pages/Tools.tsx:149-151 | drops one row of one ledger; the other ledger and the other fields are unchanged |
| ChatScreen.HistoryWindow | src/pages/Chat.tsx:118-121 | the request history is the last at most eight messages, in order, each with its text and mapped role |
| ChatScreen.HistoryWindowRoles | src/pages/Chat.tsx:119 | only the roles "user" and "assistant" are sent |
| ChatScreen.UpdateHistory | src/pages/Chat.tsx:72-77 | sets the given avatar's list and leaves every other avatar's list unchanged |
| ChatScreen.RowsToMessages | src/pages/Chat.tsx:93-98 | the loader loop gives the messages of the rows taken oldest first |
| ChatScreen.MsgsOfShape | src/pages/Chat.tsx:93-98 | one user message per row, in row order, plus one AI message per truthy reply; with rows, the list opens with the oldest row's user message |
| ChatScreen.MsgsOfAlternates | src/pages/Chat.tsx:93-98 | an AI message never opens the list and always follows a user message |
| ChatScreen.LoadedMessages | src/pages/Chat.tsx:84-103 | never empty; the greeting when there is no user, an error, or no rows; otherwise the loaded messages |
| ChatScreen.ChatPage.constructor | src/pages/Chat.tsx:39-42 | initial state: the naval avatar, no histories, empty input, not sending |
| ChatScreen.ChatPage.SelectAvatar | src/pages/Chat.tsx:156 | changes only the active avatar |
| ChatScreen.ChatPage.SetInput | src/pages/Chat.tsx:242 | changes only the input |
| ChatScreen.ChatPage.LoadActive | src/pages/Chat.tsx:79-107 | an avatar with a cached list keeps it; otherwise its list becomes the loaded messages |
| ChatScreen.ChatPage.BeginSend | src/pages/Chat.tsx:109-121 | sends nothing while a send is pending or when the trimmed text is empty; otherwise appends the user's message, clears the input, sets `sending`, and builds the request from the avatar, the text and the history window |
| ChatScreen.ChatPage.FinishSend | src/pages/Chat.tsx:122-144 | a reply sets the captured avatar's list to the captured messages plus the user's and the AI's; an error leaves the lists as the send left them, with the user's message already added; `sending` is cleared in both cases |
| Notifications.DailyNewsletter | src/lib/newsContent.ts:1-17 | the digest has the fixed title and a body that embeds the chosen headline |
| Notifications.Decide | src/services/NotificationService.ts:23-48 | without permission, nothing is sent or changed; the mood reminder goes out iff its marker is not today; the digest goes out iff the hour is 17 or later and its marker is not today; each marker becomes today exactly when its notice goes out |
| Notifications.Shown | src/services/NotificationService.ts:31-47 | at most two notices, the mood reminder first and the digest last |
| Notifications.SecondCheckIsQuiet | src/services/NotificationService.ts:23-48 | a second check on the same day and hour sends nothing and changes no marker |
| Notifications.MoodMarkerIsToday | src/services/NotificationService.ts:32-40 | after a granted check the mood marker is today |
| Notifications.MarkersIndependent | src/services/NotificationService.ts:31-47 | each half depends only on its own marker (and the digest also on the hour) |
| Notifications.NotificationService.constructor | src/services/NotificationService.ts:27-28 | the markers are read from storage, and nothing has been shown yet |
| Notifications.NotificationService.SendNotification | src/services/NotificationService.ts:14-21 | a notice is shown only with permission |
| Notifications.NotificationService.CheckAndSendNotifications | src/services/NotificationService.ts:23-48 | the stored markers and the shown notices follow `Decide` |
| AiChat.JsString | supabase/functions/ai-chat/index.ts:44 | `String(v)` of a JSON value: a string is itself; an object is "[object Object]", or a `TypeError` when it has its own `toString`; an array's text is its elements' texts joined by "," (with `null` and missing elements as "") |
| AiChat.JsStringFailsIff | supabase/functions/ai-chat/index.ts:44 | `String(v)` throws exactly when `v` is, or holds inside arrays, an object with its own `toString` |
| AiChat.SystemText | supabase/functions/ai-chat/index.ts:43-45 | `PERSONAS[id] \|\| …` on a plain object: the three persona ids get their prompts; the inherited `Object.prototype` methods ("constructor", "toString", …) give the text of a built-in function; "__proto__" gives "[object Object]"; every other id gets the generic mentor prompt |
| AiChat.Contents | supabase/functions/ai-chat/index.ts:48-76 | two priming turns exactly when the history is absent, not an array, or empty; then one turn per history element, with its `content` value and the role "user" exactly when its `role` is the string "user"; then the message text last |
| AiChat.BuildContents | supabase/functions/ai-chat/index.ts:48-76 | the push-and-loop construction gives the `contents` list above; a `null` history element throws the `m.role` `TypeError`; otherwise `String(message)` either throws or becomes the last turn |
| AiChat.ContentsRoles | supabase/functions/ai-chat/index.ts:51-76 | every turn has the role "user" or "model" |
| AiChat.ReplyOf | supabase/functions/ai-chat/index.ts:105 | the first candidate's first part text when that whole optional path is present, and "" otherwise (no candidates, no content, no or empty parts, or no text) |
| AiChat.Handle | supabase/functions/ai-chat/index.ts:20-117 | OPTIONS gives CORS headers only; a missing key is a 500; an avatar id or message that is not truthy (JavaScript truthiness of any JSON value) is a 400; a truthy avatar id or message whose `String()` throws, or a `null` history element, is a 500 with the `TypeError` message; a body that cannot be read is a 500 with the error's message; every response is 200, 400 or 500 |
| AiChat.RejectedNeverCallsUpstream | supabase/functions/ai-chat/index.ts:22-70 | a request answered before the completion call (a failed check or a thrown conversion) does not depend on the completion API: any two upstreams give the same response |
| AiChat.ValidRequestReply | supabase/functions/ai-chat/index.ts:43-109 | a valid request sends the `String()` of the message last, with the system instruction of the `String()` of the avatar id; an answer becomes a 200 with the reply, and a non-2xx status a 500 "Gemini API error" with its text |
| AiChat.NonTextFieldsAreSent | supabase/functions/ai-chat/index.ts:36-76 | a numeric avatar id and the message `true` pass the check: the mentor prompt is used, "true" is sent, and an answer is a 200 |
| AiChat.ArrayIdSelectsPersona | supabase/functions/ai-chat/index.ts:36-45 | the avatar id `["naval"]` reads as "naval" and selects the Naval persona |
| RagEngine.PartsTextEmpty | fin_rag_backend/rag_engine.py:58-62 | a candidate's text is empty iff none of its parts has text |
| RagEngine.AnswerTextEmpty | fin_rag_backend/rag_engine.py:49-63 | the generated answer is empty iff no candidate has a non-empty part |
| RagEngine.GenerationContents | fin_rag_backend/rag_engine.py:39-42 | the system prompt (when non-empty) and then the prompt |
| RagEngine.GenerateText | fin_rag_backend/rag_engine.py:36-66 | a failed generation gives "" |
| RagEngine.HistTextAppend | fin_rag_backend/rag_engine.py:80-84 | the history text of two lists concatenated is their texts concatenated |
| RagEngine.HistTextLines | fin_rag_backend/rag_engine.py:80-84 | the history text is one line per entry, in order |
| RagEngine.HistoryText | fin_rag_backend/rag_engine.py:80-84 | the accumulating loop gives that text |
| RagEngine.PyLast | fin_rag_backend/rag_engine.py:78 | `s[-n:]` is the last `min(n, len)` elements |
| RagEngine.Contextualized | fin_rag_backend/rag_engine.py:68-98 | with no history, the query is returned unchanged |
| RagEngine.ContextCalls | fin_rag_backend/rag_engine.py:72-97 | at most one generation call, and none exactly when there is no history |
| RagEngine.ContextualizeQuery | fin_rag_backend/rag_engine.py:68-98 | returns the standalone question and the calls above |
| RagEngine.ContextWindow | fin_rag_backend/rag_engine.py:78 | entries older than the last four change neither the rewrite nor the call |
| RagEngine.EmptyRewriteKeepsQuery | fin_rag_backend/rag_engine.py:97-98 | an empty rewrite falls back to the original question |
| RagEngine.BlankRewriteGivesEmptyQuery | fin_rag_backend/rag_engine.py:98 | a rewrite made only of whitespace is stripped to "", with no fallback |
| RagEngine.NonBlank | fin_rag_backend/rag_engine.py:111 | every kept variation is non-empty and is the stripped form of some line |
| RagEngine.ListSet | fin_rag_backend/rag_engine.py:114 | `list(set)` lists each element exactly once |
| RagEngine.ListFirstFour | fin_rag_backend/rag_engine.py:114-115 | the cut keeps `min(4, size)` distinct elements of the pool |
| RagEngine.ExpandQuery | fin_rag_backend/rag_engine.py:100-115 | the result is a valid expansion of the query and its variations, made with exactly one generation call |
| RagEngine.ExpansionKeepsAllWhenFew | fin_rag_backend/rag_engine.py:113-115 | with at most four distinct candidates, the query and every variation are searched |
| RagEngine.ExpansionMayDropQuery | fin_rag_backend/rag_engine.py:113-115 | with five distinct candidates, the cut may leave the original query out |
| RagEngine.KeepPersona | fin_rag_backend/rag_engine.py:129 | keeps exactly the chunks of the persona and the general ones |
| RagEngine.TopicChunks | fin_rag_backend/rag_engine.py:127-129 | no filter for an empty, missing or "default" persona; otherwise the persona's and the general chunks |
| RagEngine.ScanFacts | fin_rag_backend/rag_engine.py:141-156 | a scan only appends, marks every id it meets, appends only scanned chunks, and keeps ids unique |
| RagEngine.ScanAllSeen | fin_rag_backend/rag_engine.py:146-156 | a scan over chunks already seen changes nothing |
| RagEngine.GatherAllSeen | fin_rag_backend/rag_engine.py:131-159 | once every topic id is seen, later queries add nothing |
| RagEngine.GatherFacts | fin_rag_backend/rag_engine.py:131-159 | every gathered entry comes from a topic chunk, and ids are unique |
| RagEngine.FailedQuerySkipped | fin_rag_backend/rag_engine.py:157-159 | a query whose embedding fails is skipped; the other queries are processed as if it were absent |
| RagEngine.FailedPrefixSkipped | fin_rag_backend/rag_engine.py:157-159 | leading failed queries change nothing |
| RagEngine.FirstEmbeddedQueryScores | fin_rag_backend/rag_engine.py:146-156 | every score comes from the first query whose embedding succeeds (keep-first de-duplication) |
| RagEngine.InsertByScore | fin_rag_backend/rag_engine.py:161 | insertion adds exactly one element and keeps the rest, as a multiset |
| RagEngine.SortedCons | fin_rag_backend/rag_engine.py:161 | a list is sorted iff its tail is sorted and its head scores at least as high as every element of the tail |
| RagEngine.InsertSorted | fin_rag_backend/rag_engine.py:161 | insertion into a sorted list keeps it sorted |
| RagEngine.InsertDistinct | fin_rag_backend/rag_engine.py:161 | insertion of a new id keeps ids unique |
| RagEngine.SortByScore | fin_rag_backend/rag_engine.py:161 | the sort is a permutation |
| RagEngine.SortFacts | fin_rag_backend/rag_engine.py:161 | the sorted list has non-increasing scores and keeps ids unique |
| RagEngine.PyTake | fin_rag_backend/rag_engine.py:162 | `s[:k]` is a prefix of length `min(k, len)`, or `len + k` for a negative `k` |
| RagEngine.EmbedCalls | fin_rag_backend/rag_engine.py:131-138 | one embedding call per query, in order |
| RagEngine.Retrieve | fin_rag_backend/rag_engine.py:117-162 | with no client, raises the configuration error and makes no call; otherwise returns the retrieved list and one embedding call per query |
| RagEngine.RetrievedFacts | fin_rag_backend/rag_engine.py:117-162 | the retrieved list has unique ids, non-increasing scores and at most `top_k` entries, and each entry carries the fields of a chunk the persona may use |
| RagEngine.PersonaStyle | fin_rag_backend/rag_engine.py:188-214 | the style block chosen by the lower-cased persona; none for any other persona |
| RagEngine.NewEngine | fin_rag_backend/rag_engine.py:12-26 | a client exists iff the key is set and non-empty; the chunks are those of the stored file, or none |
| RagEngine.Place | fin_rag_backend/rag_engine.py:216 | the locale, or "India" when it is empty or missing |
| RagEngine.ChatSystem | fin_rag_backend/rag_engine.py:216-244 | the answer's system prompt is never empty, so it is always sent |
| RagEngine.Answer | fin_rag_backend/rag_engine.py:246-258 | the answer comes back with exactly the sources it was built from; a failed generation gives an empty answer |
| RagEngine.ChatOutcome | fin_rag_backend/rag_engine.py:164-258 | a `None` persona raises the `lower()` error, and only then; otherwise the sources are those retrieved for the searched queries |
| RagEngine.AnswerCalls | fin_rag_backend/rag_engine.py:253 | exactly one answer call, unless the persona is `None` |
| RagEngine.ExpandCalls | fin_rag_backend/rag_engine.py:171-177 | no expansion call exactly in lite mode |
| RagEngine.Chat | fin_rag_backend/rag_engine.py:164-258 | with no client, an error and no calls; otherwise the outcome above, the searched queries (the standalone question alone in lite mode, otherwise a valid expansion of it), and the calls in order: rewrite, expansion, embeddings, answer |
| RagEngine.ChatSources | fin_rag_backend/rag_engine.py:180 | an answer's sources are at most five distinct chunks, best score first |
| RagEngine.LiteModeSearchesOnce | fin_rag_backend/rag_engine.py:171-180 | in lite mode, the only embedding call is for the standalone question, and there is no expansion call |
| RagServer.AfterOnLineIff | fin_rag_backend/server.py:39-40 | the `(.*)` scan finds the second half exactly when it appears later on the same line |
| RagServer.MatchHere | fin_rag_backend/server.py:38-43 | the matcher succeeds at an index exactly when the pattern matches there |
| RagServer.SearchFromIff | fin_rag_backend/server.py:45 | the left-to-right search succeeds iff some start from `i` on matches |
| RagServer.Search | fin_rag_backend/server.py:45 | `re.search` finds a match iff the pattern occurs |
| RagServer.FirstMatch | fin_rag_backend/server.py:44-47 | returns the index of the first pattern that occurs, and nothing iff none occurs |
| RagServer.GapOccursIff | fin_rag_backend/server.py:39-40 | `a(.*)b` matches iff `a` appears, followed on the same line by `b`, ignoring case |
| RagServer.LiteralOccursIff | fin_rag_backend/server.py:41-42 | a literal pattern matches iff the message contains it, ignoring case |
| RagServer.GuardrailsIff | fin_rag_backend/server.py:36-47 | the guardrail fires iff one of the four risky phrasings is present |
| RagServer.SingleSpaceBuyStockPasses | fin_rag_backend/server.py:39 | "buy stock" with one space does not fire |
| RagServer.FoldedBuyStockRefused | fin_rag_backend/server.py:39-45 | "Buy … STOCK", with a Kelvin sign for the K and anything on the same line in between, fires |
| RagServer.RequestWithDefaults | fin_rag_backend/server.py:19-24 | absent fields take the declared defaults; an explicit `None` is kept |
| RagServer.SourceOf | fin_rag_backend/server.py:66-71 | id and score are copied; a missing title becomes "Reference" and a missing section "General" |
| RagServer.MapSources | fin_rag_backend/server.py:65-73 | one source record per chunk, in order |
| RagServer.Respond | fin_rag_backend/server.py:62-78 | a result becomes a response; a `ValueError` becomes a 500 "Configuration Error: …"; any other error a 500 "Internal Server Error: …" |
| RagServer.ChatEndpoint | fin_rag_backend/server.py:49-78 | a refused message gets the fixed refusal, no sources and no API call; with no client, a 500 configuration error and no call; otherwise lite-mode `chat` and the response built from its outcome |
| RagServer.AnsweredSources | fin_rag_backend/server.py:60-73 | an answered request lists at most five sources, each id once, best score first |
| RagServer.NullPersonaIsInternalError | fin_rag_backend/server.py:77-78 | a `null` persona is answered with a 500 internal server error |
| Ingest.PersonaTag | fin_rag_backend/ingest.py:52-58 | the tag is always one of naval, ray, buffett or general |
| Ingest.PersonaPrecedence | fin_rag_backend/ingest.py:52-58 | each tag is given iff its word is in the lower-cased name and no earlier word is |
| Ingest.NavalBeatsRay | fin_rag_backend/ingest.py:52-58 | a name containing both naval and ray is tagged naval |
| Ingest.EmbedText | fin_rag_backend/ingest.py:48 | the embedded text is the title, a newline, then the content |
| Ingest.ArticleOutcome | fin_rag_backend/ingest.py:44-75 | a missing title raises first, then a missing content; otherwise the article is skipped iff the embedding fails or the id or section is missing; a kept chunk carries the article's fields, the file name as source, the file's persona tag, the content as text, and the embedding of title and content |
| Ingest.Ingested | fin_rag_backend/ingest.py:12-31 | a missing or empty key raises the key error, even before the directory check; with a key but no data directory, the result is empty |
| Ingest.LoadAndChunkData | fin_rag_backend/ingest.py:25-77 | the nested file and article loops return or raise exactly what `Ingested` says |
| Ingest.FoldWellFormed | fin_rag_backend/ingest.py:48-70 | the run only appends, and every chunk it adds comes from a `.json` file, is tagged from that file's name, has every field set, and carries the embedding of its title and text |
| Ingest.IngestedWellFormed | fin_rag_backend/ingest.py:48-70 | every chunk the script returns has the properties above |
| Ingest.CleanIngest | fin_rag_backend/ingest.py:34-77 | when every `.json` file parses and every article has a title and a content, nothing is raised, and the result is the kept articles' chunks, file by file in listing order; files that are not `.json` contribute nothing |
| Ingest.BrokenFileAborts | fin_rag_backend/ingest.py:41-48 | an unreadable `.json` file, or an article in one without a title or a content, makes the whole run raise |
| Ingest.UpperCaseExtensionSkipped | fin_rag_backend/ingest.py:35-36 | the extension test is case-sensitive: a `.JSON` file is passed over |
| Survey.SetField | src/pages/Survey.tsx:28-29 | selecting an option sets that field to the value |
| Survey.SetFieldOnly | src/pages/Survey.tsx:29 | the selected field gets the value, and the other fields are unchanged |
| Survey.Segment | src/pages/Survey.tsx:39-42 | the segment is one of Investor, Saver, Learner or General |
| Survey.SegmentIff | src/pages/Survey.tsx:39-42 | Investor iff "invest", Saver iff "save", Learner iff "learn", and General for any other goal |
| Survey.ManageAndEmptyAreGeneral | src/pages/Survey.tsx:39-42 | "manage" and an unanswered goal are both General |
| Survey.Stored | src/pages/Survey.tsx:47-49 | the segment, the preferred persona and "true" are stored under their three keys; every other key is unchanged |
| Survey.ProgressEnds | src/pages/Survey.tsx:67 | on every shown step the bar is partly filled, and it is full exactly at step 4 |
| Survey.SurveyFlow.constructor | src/pages/Survey.tsx:11-16 | the survey starts at step 1 with empty answers |
| Survey.SurveyFlow.Submit | src/pages/Survey.tsx:34-52 | submission stores what `Stored` describes and navigates; the step and answers are unchanged |
| Survey.SurveyFlow.HandleNext | src/pages/Survey.tsx:20-26 | below step 4 the step goes up by one; at step 4 it submits the current answers; the step stays in 1..4 |
| Survey.SurveyFlow.HandleOptionSelectAsWritten | src/pages/Survey.tsx:28-32 | stores the answer and advances; at step 4 it submits the answers as they were before the click |
| Survey.SurveyFlow.HandleOptionSelect | src/pages/Survey.tsx:28-32 | stores the answer and advances; at step 4 it submits the answers including this one |
| Survey.FirstRunAsWritten | src/pages/Survey.tsx:28-52 | a first run through the survey as written stores an empty preferred persona, whatever is picked |
| Survey.FirstRun | src/pages/Survey.tsx:28-52 | a first run through the corrected survey stores the picked persona and the goal's segment, ends at step 4, and navigates |

## Left out

- Network, database and platform calls are parameters or are left out, because they cannot be modelled here:
  - the Supabase calls (`listChatHistory`, `addChatMessage`, `getMonthlyBudget`, `upsertMonthlyBudget`) and the save mutation with its toast;
  - the completion API's HTTP request (URL, headers, JSON encoding);
  - the Gemini client object;
  - FastAPI's request validation (a 422 for a missing `user_id` or `message`) and the `/` HTML route;
  - `requestPermission`, the `Notification` constructor's icon, and `init`'s one-minute interval.
- Clocks, randomness and timers are inputs:
  - `Date.now()` message ids, today's date string and the hour;
  - `Math.random` (an index into the headlines).
- Timers are modelled as callbacks that fire at once, before the next user action:
  - the survey's 300 ms and 1000 ms `setTimeout`s;
  - `time.sleep` in the ingestion script.

  As a result, two option clicks inside one 300 ms window, whose timers would overlap, are not modelled.
- Floating point is left out:
  - `_cosine_similarity` is the abstract `similarity` function of `Api`;
  - scores are reals;
  - amounts are whole numbers (cents) or NaN, and infinities are left out;
  - `toFixed` formatting is left out;
  - the progress bar width is computed exactly, and only its endpoints are stated.
- Logging (`print`, `console.log`, `console.error`) is left out; it has no effect on results.
- The effect cancellation flag and the speech-to-text effect of the chat page are left out.
- File handling in the Python backend is reduced to data:
  - reading `embeddings.json` is a parameter of `NewEngine` (`None` for a missing file);
  - the ingestion script's directory listing and parsed files are a parameter;
  - writing `embeddings.json` and the script's `__main__` wrapper are left out.
- JSON values are restricted to what the code expects:
  - article and chunk fields are strings or absent;
  - a chat history entry's `role`, `content` and `message` are a string, `None` or absent. A value of another JSON type stands for the string its f-string formatting gives. No behaviour is lost by this: `contextualize_query` only formats these values and tests `content` for truthiness, so a falsy `content` stands for `""`;
  - a parsed data file is a list of articles;
  - a stored budget income is a number or NaN;
  - a chunk always carries an id, a text and an embedding, as the ingestion script writes them.

  As a result, the `KeyError` that a chunk without an id would raise inside `retrieve`'s `try` is not modelled. Neither are the unreachable `"unknown"` and `0.0` defaults of the source mapping.
- AiChat.Handle: the request body's JSON numbers are integers. Fractions are not modelled. Neither is the exponent form that `String()` gives integers of magnitude 10^21 or more.
- AiChat.Handle: a JSON object is represented only by whether it has its own `toString` key. An object sent as a history element's `content` therefore reaches the upstream call without its other keys.
- AiChat.SystemText: the texts of the inherited built-in functions are those the V8 engine prints, as Deno runs it.
- AiChat.ReplyOf: the answer's `candidates` and `parts` are arrays or absent, and a part's `text` is a string or absent. A non-string `text`, which `?? ""` would pass through, is not modelled.
- Text.Lower: lower-cases ASCII letters only. Python's `str.lower` also folds other letters, so persona names with non-ASCII capitals are not modelled in `PersonaStyle` and `PersonaTag`. The guardrail does model `re.IGNORECASE` in full, including the non-ASCII characters that fold to i, s and k.
- RagEngine.ExpandQuery: does not fix the order in which `list(set(...))` lists the pool; the method picks some order and its contract holds for every order.
- RagEngine.SourceAnswerTexts: the answer-prompt texts (persona styles, guardrails and format instructions) are data carried by the engine, with the source's wording as values. The proofs hold for any wording.
- RagEngine.GenerateText: the `hasattr` probing of the response object is reduced to a list of candidates, each with an optional list of optional part texts.
- Ingest.LoadAndChunkData: the embedding calls are not recorded. An article without an id or a section is still embedded before it is skipped, and the model does not show this.
- Survey.Field: only the three keys the page passes to `handleOptionSelect` are modelled.

## Findings

| source | as written | input that shows it | evidently intended | confidence | as-written member | corrected member |
|---|---|---|---|---|---|---|
| src/pages/Survey.tsx:28-52 | the timer set by `handleOptionSelect` runs the `handleNext` of the render in which the option was clicked, so at step 4 that run's `handleSubmit` reads `formData` from before the click | on a first visit, pick any goal and level, then pick the persona "warren" on step 4: `fin_preferred_persona` is stored as "" | the picked persona is the one stored | not executed | Survey.FirstRunAsWritten | Survey.FirstRun |
