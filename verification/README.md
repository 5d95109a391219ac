# owon_ai, modelled in Dafny

owon_ai is a Next.js teaching assistant for electronics labs built around OWON
instruments. It does four things:

- It relays questions to the DashScope completion service and streams the
  answers back as server-sent events.
- It keeps chat sessions in React state.
- It serves a Q&A collection and a todo list backed by Supabase.
- It runs two mock "experiment teaching" sites, each with a course catalogue,
  a tutor chat, lab-report previews, a student login and admin panels.

This project models the logic of those parts and proves properties about it:

- the stream reassembly, parsing and relaying;
- the chat state transitions;
- the filters, counts, sorts and validators;
- the student login;
- the session middleware;
- the cookie callbacks of the browser Supabase client.

Network, storage, clocks, JSON and the user interface are left out or taken
as parameters.

One module per source file:

| module | models |
|---|---|
| `Text`, `Collections` | the JavaScript string and array methods the application relies on (`split`, `join`, `trim`, `includes`, ASCII `toLowerCase`, `filter`, stable `sort`) |
| `Search` | the case-insensitive two-field search box of the course, question, FAQ and file lists |
| `EventStream` | the `data:` line format shared by the upstream service, the relay routes and the pages |
| `DashScopeService` | src/lib/dashscope/service.ts |
| `MultiChat` | src/test/test_aliyun_api_multi_chat.ts |
| `ChatRoute` | src/app/api/chat/route.ts |
| `DashScopeRoute` | src/app/api/dashscope/route.ts |
| `ClientStream`, `TestApiPage` | src/app/test-api/page.tsx |
| `TestAiPage` | src/app/test/test_ai/page.tsx |
| `ChatHook` | src/app/chat/hooks/useChatState.ts |
| `ChatUiHook` | src/app/test/test_ai_chat_ui/hooks/useChatState.ts |
| `QACollection` | src/app/test/qa_collection/page.tsx |
| `TodosPage` | with-supabase-app/app/protected/todos/page.tsx |
| `TodosApi` | with-supabase-app/app/api/todos/route.ts |
| `TodoItem` | src/components/todo/TodoItem.tsx |
| `TestDblyData` | src/app/test/test_dbly/mockData.ts |
| `ManualAdmin` | src/app/test/test_dbly/admin/page.tsx |
| `TestDblyCatalog` | src/app/test/test_dbly/page.tsx |
| `Dbly1Data` | src/app/test/dbly1/mockData.ts and src/app/test/dbly1/types.ts |
| `CourseAdmin` | src/app/test/dbly1/admin/page.tsx |
| `StudentLogin` | src/app/test/dbly1/login/page.tsx |
| `Dbly1Catalog` | src/app/test/dbly1/page.tsx |
| `Middleware` | src/lib/supabase/middleware.ts |
| `CookieAdapter` | src/lib/supabase/client.ts and with-supabase-app/lib/supabase/client.ts |

Code that changes state step by step is modelled as classes with methods:

- the stream transformers;
- the relay writers;
- the React hooks and pages;
- the admin page;
- the login page.

Each such method's `ensures` ties the new state to a specification function of
the old state and the inputs. The properties are proved about those functions.
Pure code (filters, validators, report builders) is modelled as functions with
lemmas.

## Model

| member | source | states |
|---|---|---|
| EventStream.LineText | src/lib/dashscope/service.ts:31-36 | a line gives a text only when it starts with `data:` and its payload's `output.text` is non-empty |
| EventStream.LineSession | src/test/test_aliyun_api_multi_chat.ts:55-64 | a line gives a session id only when it starts with `data:` and its payload's `output.session_id` is non-empty |
| EventStream.Lines | src/app/api/chat/route.ts:22 | splitting a chunk on `\n` yields at least one line |
| EventStream.Reassembly | src/lib/dashscope/service.ts:22-23 | old buffer plus chunk is exactly the complete events, each followed by the blank line, then the new buffer; no text is lost or duplicated |
| EventStream.PendingIsIncomplete | src/lib/dashscope/service.ts:19-23 | the buffer kept after a transform never contains `\n\n` |
| EventStream.CarryPending | src/lib/dashscope/service.ts:19-23 | carrying the unfinished tail gives the same events and tail as splitting the whole input at once |
| DashScopeService.AsList | src/lib/dashscope/service.ts:45-47 | a block hands on at most one text |
| DashScopeService.LastText | src/lib/dashscope/service.ts:27-36 | a block's text, when present, is non-empty |
| DashScopeService.EventTexts | src/lib/dashscope/service.ts:25-48 | at most one `onData` text per complete event |
| DashScopeService.LineTexts | src/lib/dashscope/service.ts:55-67 | the flush hands on at most one text per leftover line |
| DashScopeService.LastTextAbsent | src/lib/dashscope/service.ts:30-45 | a block hands on nothing exactly when none of its lines carries a text |
| DashScopeService.LastTextIsLastDataLine | src/lib/dashscope/service.ts:30-36 | a block's text is the text of one of its lines, and no later line carries a text: the last one wins |
| DashScopeService.LastTextSkipsLine | src/lib/dashscope/service.ts:32-41 | a line that is not `data:`, does not parse or has no text changes nothing, and later lines are still read |
| DashScopeService.StreamTextsSound | src/lib/dashscope/service.ts:45-46 | every text handed to `onData` is non-empty and is the text carried by some line of one of the body's blocks |
| DashScopeService.DeliverStep | src/lib/dashscope/service.ts:25-48 | one step of the event loop hands on the block's text exactly when it is non-empty |
| DashScopeService.TransformComposes | src/lib/dashscope/service.ts:19-23 | the texts handed on do not depend on how the body is cut into chunks |
| DashScopeService.SSETransformer.constructor | src/lib/dashscope/service.ts:11-16 | the transformer starts with an empty buffer and has handed on nothing |
| DashScopeService.SSETransformer.ScanBlock | src/lib/dashscope/service.ts:26-43 | the line loop leaves in `textContent` the block's text, or `''` when there is none |
| DashScopeService.SSETransformer.Transform | src/lib/dashscope/service.ts:18-51 | the new buffer is the unfinished tail and holds no `\n\n`; each complete event's text is handed on, in order |
| DashScopeService.SSETransformer.HandOn | src/lib/dashscope/service.ts:25-48 | the event loop hands on exactly the texts of the events, in order, and leaves the buffer alone |
| DashScopeService.SSETransformer.Flush | src/lib/dashscope/service.ts:53-70 | the flush hands on every text of the leftover buffer's lines, several if there are several |
| DashScopeService.Pipe | src/lib/dashscope/service.ts:134-135 | piping the chunks hands on the texts of the whole body |
| DashScopeService.Service.constructor | src/lib/dashscope/service.ts:77-83 | the service keeps the configured key and app id, the two pipeline ids and the 30-second timeout |
| DashScopeService.Service.PostFor | src/lib/dashscope/service.ts:96-125 | the request goes to `https://dashscope.aliyuncs.com/api/v1/apps/<appId>/completion`, from which the app id reads back, and carries the prompt and no session id, incremental output, the pipeline ids, the bearer key and the timeout |
| DashScopeService.Registry.constructor | src/lib/dashscope/service.ts:74 | no instance exists at first |
| DashScopeService.Registry.GetInstance | src/lib/dashscope/service.ts:85-90 | the first call creates the instance from its config; every later call returns that same instance |
| DashScopeService.GetInstanceTwice | src/lib/dashscope/service.ts:85-90 | two calls with different configs return the same object, built from the first config |
| DashScopeService.SignalCallback | src/lib/dashscope/service.ts:136-156 | each stream signal calls at most one callback |
| DashScopeService.SignalCallbacks | src/lib/dashscope/service.ts:136-156 | the signals call at most one callback each, in order |
| DashScopeService.ThrownError | src/lib/dashscope/service.ts:168-183 | a thrown error reports the response status when there is a non-zero one, else 500, with an `API调用失败: ` message |
| DashScopeService.StreamCallbacks | src/lib/dashscope/service.ts:130-132 | each text handed on becomes one `onStream` call, in order |
| DashScopeService.AskQuestion | src/lib/dashscope/service.ts:92-185 | a 200 reply streams the body's texts and then the signals' callbacks; another status gives one `onError` with that status; a thrown error gives one `onError` |
| DashScopeService.CompletionCount | src/lib/dashscope/service.ts:136-156 | `onComplete` runs once per `end` signal and once per `finish` signal that reaches it |
| MultiChat.WithNewline | src/test/test_aliyun_api_multi_chat.ts:73-76 | every pushed text is the block's text followed by `\n` |
| MultiChat.WithNewlineAppend | src/test/test_aliyun_api_multi_chat.ts:73-76 | pushing distributes over consecutive runs of events |
| MultiChat.SessionComposes | src/test/test_aliyun_api_multi_chat.ts:43-64 | the recorded session id does not depend on how the body is cut into chunks |
| MultiChat.SessionNeverCleared | src/test/test_aliyun_api_multi_chat.ts:61-64 | once recorded, the session id stays non-empty; a new id is always the non-empty id of some line |
| MultiChat.BlockStep | src/test/test_aliyun_api_multi_chat.ts:49-77 | one step of the event loop pushes the block's text with `\n` when it has one and updates the session id |
| MultiChat.SSETransformer.constructor | src/test/test_aliyun_api_multi_chat.ts:38-40 | the buffer and session id start empty |
| MultiChat.SSETransformer.ScanBlock | src/test/test_aliyun_api_multi_chat.ts:50-71 | the line loop finds the block's last text and its last non-empty session id |
| MultiChat.SSETransformer.Transform | src/test/test_aliyun_api_multi_chat.ts:42-80 | the buffer keeps only the tail after the last `\n\n`; each complete event with text pushes that text plus `\n`; the session id is the last one seen |
| MultiChat.SSETransformer.HandOn | src/test/test_aliyun_api_multi_chat.ts:49-77 | the event loop pushes the events' texts with newlines and records their last session id |
| MultiChat.SSETransformer.Flush | src/test/test_aliyun_api_multi_chat.ts:82-90 | the flush pushes the raw leftover plus `\n` when it is non-empty, then `\nsession_id: <id>\n` exactly when an id was recorded |
| MultiChat.Pipe | src/test/test_aliyun_api_multi_chat.ts:151-155 | piping the chunks pushes the output of the whole body and records the session id of its complete events |
| MultiChat.CallRequest | src/test/test_aliyun_api_multi_chat.ts:113-130 | the request carries `input.session_id` exactly when a truthy session id is supplied |
| MultiChat.FirstRoundMatchesService | src/test/test_aliyun_api_multi_chat.ts:113-125 | without a session id the script's request body is the service's request body |
| MultiChat.Settle | src/test/test_aliyun_api_multi_chat.ts:156-164 | the first `end` or stream error decides: it resolves with the recorded id exactly when an `end` comes before any error, rejects with that error's message exactly when an error comes before any `end`, and stays pending exactly when neither comes |
| MultiChat.CallDashScope | src/test/test_aliyun_api_multi_chat.ts:110-189 | the request sent, the text written to standard output, and the settlement: a status other than 200 rejects |
| MultiChat.RunMultiRound | src/test/test_aliyun_api_multi_chat.ts:191-211 | the second question is sent exactly when the first call resolves, with the session id it resolved with |
| ChatRoute.SessionCookieOptions | src/app/api/chat/route.ts:33-38 | the session cookie is `httpOnly`, `sameSite` strict, path `/`, and `secure` exactly in production |
| ChatRoute.TextFrames | src/app/api/chat/route.ts:28-30 | each text becomes one `{text}` frame, in order |
| ChatRoute.ChatRelay.constructor | src/app/api/chat/route.ts:15-16 | the writer starts open with no frames and the request's cookie |
| ChatRoute.ChatRelay.OnData | src/app/api/chat/route.ts:20-45 | a chunk's lines are read alone, with no carried buffer; each `data:` line with text adds one frame while the writer is open; the last session id seen sets the cookie |
| ChatRoute.ChatRelay.ScanChunk | src/app/api/chat/route.ts:24-44 | the line loop collects the lines' texts in order and the last session id |
| ChatRoute.ChatRelay.ScanLine | src/app/api/chat/route.ts:25-43 | one line gives its text and session id; lines that are not `data:` or do not parse give nothing |
| ChatRoute.ChatRelay.OnEnd | src/app/api/chat/route.ts:47-49 | upstream end closes the writer and writes nothing |
| ChatRoute.ChatRelay.OnError | src/app/api/chat/route.ts:51-54 | an upstream error aborts the writer without an error frame |
| ChatRoute.StraddlingLineLost | src/app/api/chat/route.ts:20-24 | a `data:` line cut across two chunks gives no frame, although the whole line would give one |
| ChatRoute.CookieFromChunk | src/app/api/chat/route.ts:31-39 | a cookie a chunk sets holds the session id of one of its lines, with the route's options |
| ChatRoute.HandleAllAppend | src/app/api/chat/route.ts:20-54 | handling two runs of upstream events in turn is handling their concatenation |
| ChatRoute.StoppedWritesNothing | src/app/api/chat/route.ts:20-54 | once the writer is closed or aborted, later events write no frame and leave the writer as it is |
| ChatRoute.OnlyTextFrames | src/app/api/chat/route.ts:20-54 | the relay writes text frames only, since an error aborts without a frame |
| ChatRoute.Post | src/app/api/chat/route.ts:5-70 | the prompt and the cookie's session id are forwarded unchanged; an unreadable body or an unreachable upstream gives 500 `Internal server error`; otherwise an event stream, whose frames, cookie and writer state are those of handling the upstream events in order from an open writer with the incoming cookie, and holds text frames only |
| DashScopeRoute.GetEnvVar | src/app/api/dashscope/route.ts:5-11 | the variable's value when set and non-empty, else the error naming it |
| DashScopeRoute.RouteWriter.constructor | src/app/api/dashscope/route.ts:31-32 | the writer starts open with no frames |
| DashScopeRoute.RouteWriter.OnStream | src/app/api/dashscope/route.ts:39-41 | a text becomes one `{text}` frame while the writer is open |
| DashScopeRoute.RouteWriter.OnError | src/app/api/dashscope/route.ts:42-47 | an error writes one `{error}` frame, then closes the writer |
| DashScopeRoute.RouteWriter.OnComplete | src/app/api/dashscope/route.ts:48-50 | completion closes the writer |
| DashScopeRoute.RouteWriter.Receive | src/app/api/dashscope/route.ts:38-51 | the writer reacts to a run of callbacks one after another |
| DashScopeRoute.ReactAllAppend | src/app/api/dashscope/route.ts:38-51 | reacting to two runs of callbacks is reacting to each in turn |
| DashScopeRoute.ClosedStaysQuiet | src/app/api/dashscope/route.ts:46-49 | once closed, the writer ignores every later callback |
| DashScopeRoute.StreamedTexts | src/app/api/dashscope/route.ts:39-41 | streamed texts append their frames in order and keep the writer open |
| DashScopeRoute.Relay | src/app/api/dashscope/route.ts:38-51 | the texts' frames, then one `{error}` frame only for an error, then a closed writer; whatever follows is ignored |
| DashScopeRoute.ErrorFrameLast | src/app/api/dashscope/route.ts:42-47 | at most one `{error}` frame is written, and only as the last frame |
| DashScopeRoute.Stream | src/app/api/dashscope/route.ts:35-51 | the frames written for each way the service call can end |
| DashScopeRoute.Post | src/app/api/dashscope/route.ts:13-72 | missing credentials or an unreadable body give 500 before the prompt is looked at; a falsy prompt gives 400 and no service call; otherwise the request is the shared instance's request for the prompt (an existing instance is reused), and the stream is the relayed callbacks for a 200 reply, one `请求失败` error frame for another status, one error frame for a thrown response error, and nothing for other throws |
| ClientStream.SpacedFrame | src/app/test-api/page.tsx:118-120 | a line yields a frame only when it starts with `data: ` |
| ClientStream.TrimmedFrame | src/app/chat/hooks/useChatState.ts:166-168 | a line yields a frame only when it starts with `data:` |
| ClientStream.FrameText | src/app/test/test_ai/page.tsx:72-73 | only a non-empty `text` counts |
| ClientStream.ChunkLines | src/app/test-api/page.tsx:114-116 | every chunk gives at least one line |
| ClientStream.ChunkLinesStep | src/app/test-api/page.tsx:114-116 | reading one more chunk appends its own lines |
| ClientStream.ChunkLinesAppend | src/app/test-api/page.tsx:114-116 | the lines of two runs of chunks are those of each run in turn |
| ClientStream.AccumulatedAppend | src/app/test-api/page.tsx:123-125 | what two runs of lines accumulate is what each run accumulates, in order |
| ClientStream.AccumulatedStep | src/app/test-api/page.tsx:123-125 | one more line appends its own result, if any |
| TestApiPage.ReplyText | src/app/test-api/page.tsx:118-125 | a line adds text only when it is a `data: ` line, the text is not empty, and the frame reports no error |
| TestApiPage.ReplyError | src/app/test-api/page.tsx:118-122 | a line reports an error only when it is a `data: ` line whose `error` is not empty |
| TestApiPage.ReplyComposes | src/app/test-api/page.tsx:100-128 | the reply of a body is the reply of its first chunks followed by that of the rest |
| TestApiPage.LaterErrorWins | src/app/test-api/page.tsx:121-122 | an error in a later chunk replaces an earlier one; without one the earlier error stays |
| TestApiPage.Page.constructor | src/app/test-api/page.tsx:17-21 | the page starts with no prompt, no messages, no reply, no error, and not loading |
| TestApiPage.Page.ClearConversation | src/app/test-api/page.tsx:48-52 | messages, reply and error are cleared; prompt and loading are kept |
| TestApiPage.Page.ReadBody | src/app/test-api/page.tsx:100-128 | the read loop accumulates exactly the reply of the chunks and keeps their last error |
| TestApiPage.Page.ReadChunk | src/app/test-api/page.tsx:114-127 | one chunk adds the texts of its lines, in order, and reports its last error |
| TestApiPage.Page.HandleSubmit | src/app/test-api/page.tsx:54-153 | a blank prompt changes nothing; otherwise the trimmed prompt is sent with the earlier history and appended; a finished stream appends a non-empty reply and shows its last error; each failure shows its own message; loading always ends |
| TestAiPage.SessionCookie | src/app/test/test_ai/page.tsx:83-85 | the cookie set for a session id names `dashscope_session_id`, holds the id, and has path `/` |
| TestAiPage.AppendToLast | src/app/test/test_ai/page.tsx:73-81 | the text is appended to the last message only when that message is the assistant's; nothing else changes |
| TestAiPage.AppendToAssistant | src/app/test/test_ai/page.tsx:73-81 | after the placeholder, each text extends the assistant's message |
| TestAiPage.Page.constructor | src/app/test/test_ai/page.tsx:21-23 | the page starts with no input, no messages, and not loading |
| TestAiPage.Page.ClearChat | src/app/test/test_ai/page.tsx:103-106 | the messages are cleared and the session cookie is expired |
| TestAiPage.Page.ReadLines | src/app/test/test_ai/page.tsx:67-88 | one chunk's texts are appended to the assistant's message in order; each session id is written to the cookie |
| TestAiPage.Page.ReadLine | src/app/test/test_ai/page.tsx:70-86 | one line gives its non-empty text and the cookie for its non-empty session id; an unparsable line gives neither |
| TestAiPage.Page.ReadBody | src/app/test/test_ai/page.tsx:54-90 | the placeholder ends up holding every streamed text in order; every session id seen is written |
| TestAiPage.Page.HandleSend | src/app/test/test_ai/page.tsx:36-101 | nothing happens while loading or for a blank text; otherwise the untrimmed text is appended; a body fills the placeholder; any failure appends the error reply; loading always ends |
| TestAiPage.CookieWritesNameSession | src/app/test/test_ai/page.tsx:83-85 | every cookie the page writes while reading sets `dashscope_session_id` |
| ChatHook.SignedInUser | src/app/chat/hooks/useChatState.ts:32-41 | a signed-in user is registered under the account's id and email; the name is the email's part before `@`, or `用户` when there is no email or that part is empty, so it is never empty |
| ChatHook.WithAccount | src/app/chat/hooks/useChatState.ts:31-53 | knowing the account changes only the user: the guest without an account, a registered user with its id otherwise |
| ChatHook.Restored | src/app/chat/hooks/useChatState.ts:56-66 | the stored state comes back with its first session current, and no current session when it has none |
| ChatHook.ToggleSidebar | src/app/chat/hooks/useChatState.ts:73-78 | the sidebar flag flips and nothing else changes |
| ChatHook.ToggleTwice | src/app/chat/hooks/useChatState.ts:73-78 | toggling twice restores the state |
| ChatHook.Find | src/app/chat/hooks/useChatState.ts:82 | the session found is the first with the id; none is found exactly when no session has the id |
| ChatHook.SelectSession | src/app/chat/hooks/useChatState.ts:81-89 | the first session with the id becomes current; an unknown id changes nothing |
| ChatHook.SelectTwice | src/app/chat/hooks/useChatState.ts:81-89 | selecting an id twice is selecting it once |
| ChatHook.CreateNewSession | src/app/chat/hooks/useChatState.ts:92-105 | one empty session titled `新对话` is put before the others and made current; nothing else changes |
| ChatHook.CreateThenSelect | src/app/chat/hooks/useChatState.ts:92-105 | selecting the session just created changes nothing |
| ChatHook.Title | src/app/chat/hooks/useChatState.ts:131-133 | a title is the content up to 20 characters, or its first 20 characters followed by `...` |
| ChatHook.Opened | src/app/chat/hooks/useChatState.ts:110-133 | the session keeps its id, gains the user's message and an empty assistant message at the end, each with its own clock reading, and takes its title from the content only when it had no messages |
| ChatHook.ReplaceById | src/app/chat/hooks/useChatState.ts:135-141 | every session with the id is replaced and every other one kept, in place |
| ChatHook.SetContent | src/app/chat/hooks/useChatState.ts:176-181 | exactly the messages with the id get the new content |
| ChatHook.SetContentIn | src/app/chat/hooks/useChatState.ts:171-184 | exactly the sessions with the id have that message's content set |
| ChatHook.StreamUpdate | src/app/chat/hooks/useChatState.ts:171-196 | a streamed text sets the assistant message in `sessions` and, when it is the session answered, in the current session; nothing else changes |
| ChatHook.SetContentTwice | src/app/chat/hooks/useChatState.ts:176-181 | setting a message's content twice keeps only the second |
| ChatHook.StreamUpdateTwice | src/app/chat/hooks/useChatState.ts:169-196 | each streamed update overwrites the previous one |
| ChatHook.ErrorUpdate | src/app/chat/hooks/useChatState.ts:204-220 | a failure sets the error text in `sessions` only; the current session is left as it was |
| ChatHook.StreamedStep | src/app/chat/hooks/useChatState.ts:169-196 | one more text leaves the state that a single update with the longer text would give |
| ChatHook.ReadStream | src/app/chat/hooks/useChatState.ts:157-200 | the read loop accumulates every streamed text in order and leaves the state of the last update |
| ChatHook.ReadLine | src/app/chat/hooks/useChatState.ts:166-170 | a line gives the non-empty `text` of a `data:` line whose JSON parses, else nothing |
| ChatHook.ReadLines | src/app/chat/hooks/useChatState.ts:165-198 | one chunk extends the accumulated text by its lines' texts and leaves the state of the last update |
| ChatHook.MergeFeedback | src/app/chat/hooks/useChatState.ts:233 | the fields given override the previous ones; the others keep their previous value |
| ChatHook.MergeFeedbackTwice | src/app/chat/hooks/useChatState.ts:233 | merging the same feedback again changes nothing |
| ChatHook.SetFeedback | src/app/chat/hooks/useChatState.ts:230-235 | exactly the messages with the id get the merged feedback |
| ChatHook.UpdateMessageFeedback | src/app/chat/hooks/useChatState.ts:224-242 | without a current session nothing changes; otherwise only the current session's entry in `sessions` gets the feedback |
| ChatHook.Hook.constructor | src/app/chat/hooks/useChatState.ts:15-28 | the hook starts as the guest with no sessions and the sidebar open |
| ChatHook.Hook.SendMessage | src/app/chat/hooks/useChatState.ts:108-222 | without a current session nothing happens; otherwise the opened session is shown and the content sent; a complete stream leaves the last update, any failure the error text in `sessions` |
| ChatHook.ReplyInSession | src/app/chat/hooks/useChatState.ts:125-196 | after a complete stream the answered session holds the earlier messages, the user's message, and the assistant message with every streamed text |
| ChatUiHook.InitialState | src/app/test/test_ai_chat_ui/hooks/useChatState.ts:14-39 | on the server or with nothing stored the guest state; otherwise the stored state with its first session current |
| ChatUiHook.GuestStateIsEmpty | src/app/test/test_ai_chat_ui/hooks/useChatState.ts:27-38 | the guest state has no sessions, no current session and an open sidebar |
| ChatUiHook.ErrorUpdate | src/app/test/test_ai_chat_ui/hooks/useChatState.ts:185-213 | a failure sets the error text in `sessions` and, when it is the session answered, in the current session; any other current session is kept as it was |
| ChatUiHook.ErrorUpdatesCompared | src/app/test/test_ai_chat_ui/hooks/useChatState.ts:185-213 | the two hooks agree on `sessions` after a failure; only this one shows the error in the current session |
| ChatUiHook.UpdateMessageFeedback | src/app/test/test_ai_chat_ui/hooks/useChatState.ts:218-243 | without a current session nothing changes; otherwise the current session with the feedback merged replaces its entry and stays current |
| ChatUiHook.FeedbackKeepsCurrentInList | src/app/test/test_ai_chat_ui/hooks/useChatState.ts:218-243 | after a feedback update the list's entry for the current session is the current session |
| ChatUiHook.Hook.constructor | src/app/test/test_ai_chat_ui/hooks/useChatState.ts:14-39 | the hook starts in the initial state |
| ChatUiHook.Hook.SendMessage | src/app/test/test_ai_chat_ui/hooks/useChatState.ts:84-213 | as the chat page's hook, except that a failure also shows the error in the current session |
| QACollection.WindowDays | src/app/test/qa_collection/page.tsx:111-135 | the window reaches back 7, 30, 90 or 365 days |
| QACollection.ApplyAppend | src/app/test/qa_collection/page.tsx:64-135 | a filter applied to two lists is applied to each, in order |
| QACollection.PipelineAppend | src/app/test/qa_collection/page.tsx:64-135 | the whole pipeline distributes over concatenation |
| QACollection.ApplyOne | src/app/test/qa_collection/page.tsx:64-135 | one question survives a stage exactly when the stage does not apply or the question passes it |
| QACollection.PipelineOne | src/app/test/qa_collection/page.tsx:64-135 | one question passes the pipeline exactly when it passes every applicable filter |
| QACollection.PipelineIsConjunction | src/app/test/qa_collection/page.tsx:64-135 | the filters compose as a conjunction: the pipeline keeps exactly the questions that pass every applicable filter, in order |
| QACollection.FilteredQuestionsSpec | src/app/test/qa_collection/page.tsx:64-151 | the result is a permutation of the questions that pass every applicable filter, ordered by the selected key, most recent, most liked or most viewed first |
| QACollection.FilteredQuestionsStable | src/app/test/qa_collection/page.tsx:138-148 | questions with equal keys keep their collection order |
| QACollection.NothingSelectedKeepsAll | src/app/test/qa_collection/page.tsx:64-135 | with no filter applicable every question passes, in place |
| QACollection.TagToggle | src/app/test/qa_collection/page.tsx:50-56 | a selected tag is removed, every other selected tag kept; an unselected tag is appended |
| QACollection.ToggleTwice | src/app/test/qa_collection/page.tsx:50-56 | toggling a tag twice restores the selected set, and restores the list when the tag was not selected |
| QACollection.ToggleKeepsDistinct | src/app/test/qa_collection/page.tsx:50-56 | toggling keeps the selection free of duplicates |
| QACollection.Page.constructor | src/app/test/qa_collection/page.tsx:21-26 | no search, category, model or tag, latest first, over all time |
| QACollection.Page.HandleCategoryChange | src/app/test/qa_collection/page.tsx:44-47 | changing the category resets the model |
| QACollection.Page.HandleTagToggle | src/app/test/qa_collection/page.tsx:50-56 | the selected tags are toggled |
| QACollection.Page.Filtered | src/app/test/qa_collection/page.tsx:64-151 | the result is the sorted pipeline; with no filter applicable the imported array itself is reordered, otherwise it is left alone |
| TodosPage.FilteredTodos | with-supabase-app/app/protected/todos/page.tsx:117-121 | `all` shows every todo in order; `active` exactly the todos not completed; `completed` exactly the completed ones |
| TodosPage.CountsOf | with-supabase-app/app/protected/todos/page.tsx:123-127 | the counts are the sizes of the list and of its active and completed views |
| TodosPage.CountsAddUp | with-supabase-app/app/protected/todos/page.tsx:123-127 | every todo is active or completed: the counts add up |
| TodosPage.Find | with-supabase-app/app/protected/todos/page.tsx:54 | a todo is found exactly when some todo has the id; the one found is the first todo with that id |
| TodosPage.ReplaceById | with-supabase-app/app/protected/todos/page.tsx:70 | every todo with the id is replaced and every other one kept, in place |
| TodosPage.ReplaceFound | with-supabase-app/app/protected/todos/page.tsx:70 | after the replacement the todo with the id is the server's, and every other todo is still there |
| TodosPage.FindFirst | with-supabase-app/app/protected/todos/page.tsx:54 | when every todo with the id is the same todo, that todo is found |
| TodosPage.RemoveById | with-supabase-app/app/protected/todos/page.tsx:87 | exactly the todos without the id remain, and the id is no longer found |
| TodosPage.RemoveAbsent | with-supabase-app/app/protected/todos/page.tsx:87 | removing an id that is not there changes nothing |
| TodosPage.Page.constructor | with-supabase-app/app/protected/todos/page.tsx:10-13 | no todos, the `all` filter, loading, no error |
| TodosPage.Page.FetchTodos | with-supabase-app/app/protected/todos/page.tsx:19-32 | the server's list replaces the todos, or the load error is shown; loading ends |
| TodosPage.Page.AddTodo | with-supabase-app/app/protected/todos/page.tsx:34-51 | the server's todo goes first, or the add error is shown |
| TodosPage.Page.ToggleTodo | with-supabase-app/app/protected/todos/page.tsx:53-76 | an unknown id sends nothing; otherwise the negated completion is sent and the answer replaces the todo, or the toggle error is shown |
| TodosPage.Page.DeleteTodo | with-supabase-app/app/protected/todos/page.tsx:78-93 | the todos with the id are dropped, the rest keep their order, or the delete error is shown |
| TodosPage.Page.EditTodo | with-supabase-app/app/protected/todos/page.tsx:95-115 | the new title is sent as given and the answer replaces the todo, or the edit error is shown |
| TodosApi.Table.constructor | with-supabase-app/app/api/todos/route.ts:15 | the table holds the given rows |
| TodosApi.UserTodos | with-supabase-app/app/api/todos/route.ts:14-18 | exactly the caller's rows, newest first |
| TodosApi.Get | with-supabase-app/app/api/todos/route.ts:5-30 | always 200 with a list; the list is empty without a user or on a failure; otherwise it is the caller's todos, newest first |
| TodosApi.BuildUpdates | with-supabase-app/app/api/todos/route.ts:92-94 | exactly the fields that are defined are updated |
| TodosApi.Apply | with-supabase-app/app/api/todos/route.ts:96-98 | an update changes only the title and completion it defines; id, owner and creation time stay |
| TodosApi.UpdateRows | with-supabase-app/app/api/todos/route.ts:96-100 | the update reaches exactly the caller's rows with the id |
| TodosApi.UpdateConfined | with-supabase-app/app/api/todos/route.ts:99-100 | a row of another user, or with another id, is never changed |
| TodosApi.DeleteRows | with-supabase-app/app/api/todos/route.ts:144-148 | exactly the caller's rows with the id are removed |
| TodosApi.DeleteKeepsOthers | with-supabase-app/app/api/todos/route.ts:147-148 | a delete keeps every row of every other user, in order |
| TodosApi.Post | with-supabase-app/app/api/todos/route.ts:32-72 | without a user a redirect to the login page; an unparsable body 500; a blank title 400; otherwise one new row of the caller with the untrimmed title, not completed, or 500 on a database error; only a created todo changes the table |
| TodosApi.Put | with-supabase-app/app/api/todos/route.ts:74-120 | without a user a redirect; an unparsable body 500; a missing id 400; the caller's row with the id is updated only when exactly one is selected, and the answer is that row with the updates applied, as now stored; otherwise 500 and nothing changes |
| TodosApi.Delete | with-supabase-app/app/api/todos/route.ts:122-165 | without a user a redirect; a missing id 400; otherwise the caller's rows with the id are removed, or 500 on a database error and nothing changes |
| TodoItem.Item.constructor | src/components/todo/TodoItem.tsx:16-17 | the item starts in view mode with the todo's title as the draft |
| TodoItem.Item.StartEditing | src/components/todo/TodoItem.tsx:60 | the pencil enters edit mode and keeps the draft |
| TodoItem.Item.Type | src/components/todo/TodoItem.tsx:43 | typing replaces the draft |
| TodoItem.Item.HandleEdit | src/components/todo/TodoItem.tsx:19-24 | a non-blank draft is passed on as typed and edit mode ends; a blank draft changes nothing |
| TodoItem.Item.HandleCancel | src/components/todo/TodoItem.tsx:26-29 | cancelling restores the todo's title and ends edit mode |
| TodoItem.Item.Toggle | src/components/todo/TodoItem.tsx:35 | the checkbox toggles the item's own todo |
| TodoItem.Item.Delete | src/components/todo/TodoItem.tsx:63 | the bin deletes the item's own todo |
| TestDblyData.FindById | src/app/test/test_dbly/mockData.ts:234-236 | the experiment found is the first with the id; none is found exactly when no experiment has it |
| TestDblyData.FirstOfType | src/app/test/test_dbly/mockData.ts:246 | the section found has the type and no earlier section does; none is found exactly when no section has the type |
| TestDblyData.SectionText | src/app/test/test_dbly/mockData.ts:246 | the content of the first section of the type when it is not empty, otherwise the fallback; no section of the type gives the fallback |
| TestDblyData.Bullets | src/app/test/test_dbly/mockData.ts:258 | one `• item` line per piece of equipment, in order |
| TestDblyData.EquipmentText | src/app/test/test_dbly/mockData.ts:258 | the equipment section is one `• item` line per piece of equipment, in the given order, joined by newlines |
| TestDblyData.ReportSections | src/app/test/test_dbly/mockData.ts:242-285 | seven sections in the fixed order and titles; objective, theory, procedure and questions come from the manual with their fallbacks; equipment is the equipment list's text; parameters and troubleshooting are fixed |
| TestDblyData.Blocks | src/app/test/test_dbly/mockData.ts:291 | one `## title` block per section, in order |
| TestDblyData.ReportContent | src/app/test/test_dbly/mockData.ts:291 | the report's text is the sections' `## title` blocks, in section order, separated by blank lines; it begins with the first section's heading |
| TestDblyData.GeneratePreviewReport | src/app/test/test_dbly/mockData.ts:233-295 | an unknown experiment id is an error, and only then; otherwise the report carries the id, the settings, the seven sections and their text |
| TestDblyData.ReportText | src/app/test/test_dbly/mockData.ts:287-294 | a report opens with the objective heading and is exactly the blocks of its seven sections, in order, separated by blank lines |
| TestDblyData.DefaultReply | src/app/test/test_dbly/mockData.ts:322 | the default reply quotes the question and names the experiment |
| TestDblyData.FirstHit | src/app/test/test_dbly/mockData.ts:315-319 | the reply of the first group with a keyword in the question; none exactly when no group is hit |
| TestDblyData.AIResponse | src/app/test/test_dbly/mockData.ts:298-323 | the reply of the first group one of whose keywords the question contains; otherwise a reply quoting the question and naming the experiment |
| TestDblyData.OscilloscopeFirst | src/app/test/test_dbly/mockData.ts:300-303 | a question mentioning the oscilloscope gets the oscilloscope reply, whatever else it mentions |
| ManualAdmin.CourseFiles | src/app/test/test_dbly/admin/page.tsx:42-54 | one initial file per experiment of the course, in order |
| ManualAdmin.InitialFilesPerExperiment | src/app/test/test_dbly/admin/page.tsx:42-54 | exactly one initial file per experiment, in order, with id `file-<id>`, name `<name>.pdf`, type `pdf` and the manual's date |
| ManualAdmin.FilteredFiles | src/app/test/test_dbly/admin/page.tsx:57-62 | exactly the files whose name or experiment contains the search term, ignoring case, in the selected course |
| ManualAdmin.NoFilterShowsAll | src/app/test/test_dbly/admin/page.tsx:57-62 | an empty search over all courses shows every file, in order |
| ManualAdmin.OtherCourseHidden | src/app/test/test_dbly/admin/page.tsx:60-61 | a file of another course is never shown while a course is selected |
| ManualAdmin.Merge | src/app/test/test_dbly/admin/page.tsx:106 | the form's fields and the date overwrite the file's; id and size stay |
| ManualAdmin.SaveUnchanged | src/app/test/test_dbly/admin/page.tsx:89-111 | saving an edit without changing the form only renews the date |
| ManualAdmin.UpdateById | src/app/test/test_dbly/admin/page.tsx:104-108 | exactly the files with the id are updated, in place |
| ManualAdmin.UpdateKeepsIds | src/app/test/test_dbly/admin/page.tsx:104-108 | an update keeps every file's id |
| ManualAdmin.RemoveById | src/app/test/test_dbly/admin/page.tsx:115 | exactly the files without the id remain |
| ManualAdmin.FileTypeColor | src/app/test/test_dbly/admin/page.tsx:119-127 | red exactly for `pdf`, blue exactly for `doc` and `docx`, green exactly for `md`, and gray for every other type |
| ManualAdmin.ExperimentName | src/app/test/test_dbly/admin/page.tsx:256-264 | the name of the first experiment with the id, and empty when there is none |
| ManualAdmin.AdminPage.constructor | src/app/test/test_dbly/admin/page.tsx:26-38 | no files, no search, every course, no dialog open, no file selected, the empty form |
| ManualAdmin.AdminPage.Initialize | src/app/test/test_dbly/admin/page.tsx:42-54 | the mount effect installs one file per experiment and changes nothing else |
| ManualAdmin.AdminPage.HandleUpload | src/app/test/test_dbly/admin/page.tsx:64-87 | without an experiment or a file name nothing happens; otherwise exactly one file from the form is appended, the dialog closes and the form is reset |
| ManualAdmin.AdminPage.HandleEdit | src/app/test/test_dbly/admin/page.tsx:89-99 | the file is selected, fills the form, and the edit dialog opens |
| ManualAdmin.AdminPage.HandleUpdate | src/app/test/test_dbly/admin/page.tsx:101-111 | without a selected file nothing happens; otherwise the files with its id take the form and the date, and the dialog closes |
| ManualAdmin.AdminPage.HandleDelete | src/app/test/test_dbly/admin/page.tsx:113-117 | the files with the id go only when the user confirms |
| ManualAdmin.AdminPage.ChangeCourse | src/app/test/test_dbly/admin/page.tsx:240-243 | choosing a course clears the chosen experiment |
| ManualAdmin.AdminPage.ChooseExperiment | src/app/test/test_dbly/admin/page.tsx:256-264 | choosing an experiment records its id and its name, or an empty name for an unknown id |
| TestDblyCatalog.FilteredCourses | src/app/test/test_dbly/page.tsx:15-18 | exactly the courses whose name or description contains the term, ignoring case; an empty term keeps every course in order |
| TestDblyCatalog.AllExperimentsSnoc | src/app/test/test_dbly/page.tsx:97 | one more course adds its experiments after the others |
| TestDblyCatalog.CountIsAllExperiments | src/app/test/test_dbly/page.tsx:97 | the experiment total counts every experiment of every course once |
| TestDblyCatalog.MinutesAppend | src/app/test/test_dbly/page.tsx:137 | the minutes of two lists of experiments add up |
| TestDblyCatalog.MinutesBound | src/app/test/test_dbly/page.tsx:137 | when no time is negative, a course takes at least as long as any one of its experiments |
| TestDblyCatalog.MinutesNonNegative | src/app/test/test_dbly/page.tsx:137 | when no time is negative, neither is the total |
| TestDblyCatalog.CategoryKey | src/app/test/test_dbly/page.tsx:29-36 | every stored category is one the labels know |
| TestDblyCatalog.CourseCategoryNamed | src/app/test/test_dbly/page.tsx:29-36 | every course gets a proper label; the `其他` fallback never shows |
| TestDblyCatalog.PaletteTail | src/app/test/test_dbly/page.tsx:20-27 | the colour family is followed by a `-` in the class list |
| TestDblyCatalog.CategoryColor | src/app/test/test_dbly/page.tsx:20-27 | gray exactly for an unknown category; the three categories get three different colours |
| Text.PrefixedHeadInjective | src/app/test/test_dbly/page.tsx:20-27 | behind a common prefix, a head free of a separator followed by a tail opening with it determines the head, so different colour families give different class lists |
| TestDblyCatalog.EquipmentBadges | src/app/test/test_dbly/page.tsx:204-213 | the first three items are shown, and a `+N` badge counts the rest exactly when there is a rest |
| Dbly1Data.TotalIsAllExperiments | src/app/test/dbly1/admin/page.tsx:46 | the experiment total counts every experiment of every course once |
| Dbly1Data.TotalAppend | src/app/test/dbly1/admin/page.tsx:46 | a new course adds its experiments to the total |
| Dbly1Data.CourseHoursProperties | src/app/test/dbly1/page.tsx:143 | a course's hours are never negative when no experiment's are, and hours add up over lists of experiments |
| Dbly1Data.TutorReply | src/app/test/dbly1/mockData.ts:434-463 | the reply of the first group one of whose keywords the lowercased question contains, else the default reply |
| Dbly1Data.ReplyIgnoresCase | src/app/test/dbly1/mockData.ts:436 | a question and its lowercase form get the same reply |
| Dbly1Data.ChipFirst | src/app/test/dbly1/mockData.ts:438-440 | a question naming the 74LS00 chip, in any case, gets the chip's reply |
| Dbly1Data.HistoryOf | src/app/test/dbly1/mockData.ts:487-491 | exactly the messages of the experiment and the student |
| Dbly1Data.HistoryAfterAppend | src/app/test/dbly1/mockData.ts:487-503 | a saved message ends its own history and leaves every other history as it was |
| Dbly1Data.ChatStore.constructor | src/app/test/dbly1/mockData.ts:467 | the store holds the given messages |
| Dbly1Data.ChatStore.History | src/app/test/dbly1/mockData.ts:487-491 | the history holds exactly the stored messages of the experiment and the student |
| Dbly1Data.ChatStore.Save | src/app/test/dbly1/mockData.ts:494-503 | the message gets a new id and the time, is pushed, returned, and ends its history |
| CourseAdmin.StatsOf | src/app/test/dbly1/admin/page.tsx:43-54 | the totals count the courses, every experiment, questions, FAQs and files; three active students; today's questions are the number of questions asked on the current local calendar day |
| Search.EmptyTermMatches | src/app/test/dbly1/admin/page.tsx:57-58 | an empty search term matches every record |
| Search.Searched | src/app/test/dbly1/page.tsx:44-47 | exactly the records one of whose two searched fields contains the term, ignoring case; an empty term keeps every record in order |
| CourseAdmin.FilteredQuestions | src/app/test/dbly1/admin/page.tsx:56-64 | exactly the questions matching the search, course and experiment |
| CourseAdmin.FilteredFAQs | src/app/test/dbly1/admin/page.tsx:66-72 | exactly the FAQs matching the search and course; with a course selected, only FAQs tied to an experiment |
| CourseAdmin.FilteredFiles | src/app/test/dbly1/admin/page.tsx:74-80 | exactly the files matching the search and course |
| CourseAdmin.NothingSelectedShowsAll | src/app/test/dbly1/admin/page.tsx:56-80 | an empty search with nothing selected shows every list whole |
| CourseAdmin.PublishedCount | src/app/test/dbly1/admin/page.tsx:156 | the published count is at most the FAQ count and reaches it exactly when every FAQ is published |
| CourseAdmin.HotFAQs | src/app/test/dbly1/admin/page.tsx:204-206 | the five most viewed FAQs, or all when fewer, most viewed first; none left out is viewed more |
| CourseAdmin.HeadOutranksTail | src/app/test/dbly1/admin/page.tsx:204-206 | in a list sorted by views, each of the first n is viewed at least as often as each of the rest |
| CourseAdmin.HotList | src/app/test/dbly1/admin/page.tsx:204-206 | the shared FAQ array is sorted in place, a permutation of itself, and its first five are shown |
| StudentLogin.Check | src/app/test/dbly1/login/page.tsx:23-42 | the input passes exactly when name and number are not blank and the number as typed is seven digits; each failing check gives its own message, in order |
| StudentLogin.DigitsUntrimmed | src/app/test/dbly1/login/page.tsx:38-52 | a number that passes has nothing to trim, so it is stored as typed |
| StudentLogin.PaddedNumberFails | src/app/test/dbly1/login/page.tsx:38-42 | six digits and a space, which the seven-character field can hold, are not blank and still fail the format check, which reads the untrimmed number |
| StudentLogin.Storage.constructor | src/app/test/dbly1/login/page.tsx:55 | the storage holds the given items |
| StudentLogin.LoginPage.constructor | src/app/test/dbly1/login/page.tsx:13-16 | no name, no number, no error, not loading |
| StudentLogin.LoginPage.HandleLogin | src/app/test/dbly1/login/page.tsx:18-65 | an input that fails shows its message and stores nothing; otherwise the trimmed record is stored under `dbly1-student` and the page goes home, or a failure shows the login error; loading always ends |
| Dbly1Catalog.Enter | src/app/test/dbly1/page.tsx:20-37 | the student is let in exactly when a non-empty stored record decodes, and is the decoded record |
| Dbly1Catalog.LoginThenEnter | src/app/test/dbly1/page.tsx:20-37 | a login that stored a record lets that student in |
| Dbly1Catalog.LogoutThenEnter | src/app/test/dbly1/page.tsx:39-42 | after logout nobody is let in |
| Dbly1Catalog.Logout | src/app/test/dbly1/page.tsx:39-42 | the stored student is removed and the page goes to the login page |
| Dbly1Catalog.FilteredCourses | src/app/test/dbly1/page.tsx:44-47 | exactly the courses whose name or description contains the term, ignoring case; an empty term keeps every course in order |
| Dbly1Catalog.CategoryName | src/app/test/dbly1/page.tsx:58-65 | `数字电路` for `digital`, `模拟电路` for `analog`, `电路基础` for `basic`, and `其他` exactly for an unknown category |
| Dbly1Catalog.Hue | src/app/test/dbly1/page.tsx:49-56 | gray exactly for an unknown category |
| Dbly1Catalog.PaletteTail | src/app/test/dbly1/page.tsx:49-56 | the colour family is followed by a `-` in the class list |
| Dbly1Catalog.PaletteInjective | src/app/test/dbly1/page.tsx:49-56 | different colour families give different class lists |
| Dbly1Catalog.CategoryColor | src/app/test/dbly1/page.tsx:49-56 | the gray class list exactly for an unknown category |
| Dbly1Catalog.CategoriesDistinct | src/app/test/dbly1/page.tsx:49-65 | the three categories get three different labels and three different colours |
| Middleware.LoginPath | src/lib/supabase/middleware.ts:64 | the login page lies under `/auth/` |
| Middleware.UpdateSession | src/lib/supabase/middleware.ts:4-78 | a failure, an API, auth or test path, a signed-in user, or the home page passes; any other request redirects to the login page, recording the path |
| Middleware.RedirectSettles | src/lib/supabase/middleware.ts:52-67 | the redirect target itself always passes: a redirect is never followed by another |
| Middleware.UserMattersOnlyOnPrivatePages | src/lib/supabase/middleware.ts:46-69 | the user changes the outcome exactly outside the public prefixes and the home page |
| CookieAdapter.CreateClient | src/lib/supabase/client.ts:4-9 | a client is created exactly when both variables are set and not empty, with their values; otherwise the missing-variables error |
| CookieAdapter.FirstWith | src/lib/supabase/client.ts:17 | the first row with the prefix; none exactly when no row has it |
| CookieAdapter.ValueOf | src/lib/supabase/client.ts:17 | the value read has no `=` and is what follows `name=` up to the next `=` |
| CookieAdapter.Get | src/lib/supabase/client.ts:17 | nothing exactly when no pair starts with `name=`; a value read holds no `=` |
| CookieAdapter.GetFirstPair | with-supabase-app/lib/supabase/client.ts:10 | a pair written first is read back |
| CookieAdapter.GetSkips | with-supabase-app/lib/supabase/client.ts:10 | a pair for another name before the rest is skipped |
| CookieAdapter.GetTruncates | src/lib/supabase/client.ts:17 | a value with an `=` in it is cut at the `=` |
| CookieAdapter.PrefixNameMisses | src/lib/supabase/client.ts:17 | a longer name that begins with the name asked for is not read |
| CookieAdapter.MaxAge | src/lib/supabase/client.ts:20 | the max-age is the one given unless it is absent or zero, in which case it is one year; never zero |
| CookieAdapter.IntStringRoundTrip | src/lib/supabase/client.ts:20 | the max-age written reads back as the same number, per section 5.2.2 of RFC 6265 |
| CookieAdapter.SetCookie | src/lib/supabase/client.ts:20 | the cookie written begins with the pair |
| CookieAdapter.SetThenGet | with-supabase-app/lib/supabase/client.ts:13 | a value set reads back, and its max-age attribute is the one chosen |
| CookieAdapter.Remove | src/lib/supabase/client.ts:23 | the cookie written begins with the name and an empty value |
| CookieAdapter.RemoveThenGet | with-supabase-app/lib/supabase/client.ts:16 | a removed cookie reads back empty |
| Text.SplitJoin | src/app/test-api/page.tsx:115 | splitting a string on a separator and joining the pieces again gives the string back |
| Text.SplitPiecesFree | src/lib/supabase/client.ts:17 | no piece of a split holds the separator |
| Text.TrimEmptyIffAllSpace | src/app/test-api/page.tsx:55 | a string trims to nothing exactly when it is all white space |
| Text.Lower | src/app/test/qa_collection/page.tsx:68-89 | lowercasing keeps the length and maps every character on its own |
| Collections.Filter | src/app/test/qa_collection/page.tsx:64-135 | a filter keeps exactly the elements that pass, drawn from the input |
| Collections.FilterAppend | src/app/test/qa_collection/page.tsx:64-135 | filtering distributes over concatenation |
| Collections.SortDescending | src/app/test/qa_collection/page.tsx:138-148 | the sort is a permutation into non-increasing key order |
| Collections.SortStable | src/app/test/qa_collection/page.tsx:138-148 | the sort keeps the input order of elements with equal keys |

## Left out

- Network and stream plumbing: `axios`, `fetch`, `getReader`, `TransformStream` writers and Node `pipe`/`on(...)` wiring are not modelled. Upstream data is a sequence of already-received string chunks, and a writer's output is a sequence of frames.
- Asynchrony: every handler invocation is one atomic step. Un-awaited `on('data')` handlers, React `setState` batching, stale closures and the 30-second `setTimeout` abort of src/app/test-api/page.tsx are not modelled.
- Byte decoding: chunks are already-decoded strings, so a multi-byte UTF-8 character split across two chunks by `chunk.toString()` or `TextDecoder` is not modelled.
- JSON: `JSON.parse` is a parameter from text to an optional payload. `None` stands both for a thrown `SyntaxError` and for a value whose field access throws. `JSON.stringify` is not modelled: frames are kept as datatype values, and the stored student record's encoding is a parameter. `null` and `undefined` are not told apart.
- Lowercasing: `toLowerCase` is modelled for ASCII letters only; other characters are kept as they are, so non-ASCII case mapping is not modelled.
- Clocks, ids and randomness: `Date.now()`, `new Date()`, `toLocaleString`, `uuidv4` and `Math.random` give values that are parameters. The ranking window compares integer millisecond timestamps.
- Supabase: `getUser`, the client factories' network use and the database are abstracted. A user lookup is a parameter. The `todos` table is a sequence of rows. Row order on ties, column defaults and PostgREST's behaviour on an empty update object are not modelled; `.single()` is modelled as "exactly one row matched".
- TodosApi.Post: a `title` that is present but not a string makes the source's `trim` throw and answer 500. The model takes the title as an optional string, so that path is not modelled.
- Browser state: `localStorage` is a map held by an object, and `document.cookie` is a string passed to `get`; the cookie jar that assignments to `document.cookie` update is not modelled. `window.confirm` is a boolean parameter, and `router.push` is returned as the page to go to.
- CookieAdapter.MaxAge: `options?.maxAge || 31536000` is modelled on integers, so a `NaN` max-age (also falsy in JavaScript) is not modelled.
- CookieAdapter.CreateClient: models the environment check of src/lib/supabase/client.ts. with-supabase-app/lib/supabase/client.ts has no such check (it uses non-null assertions), and its client creation is not modelled beyond its cookie callbacks.
- Middleware.UpdateSession: the cookies the Supabase client sets during `getUser` are carried on the pass-through response and lost on the redirect; this, and the URL encoding of `redirectedFrom`, are not modelled.
- TestAiPage.AppendToLast: the source mutates `lastMessage.content` in place on an object that the previous state shares. The model builds a new message value, so that aliasing is not modelled.
- Sorting: `Array.prototype.sort` is modelled by its result, a stable descending sort (ES2019 requires stability); the engine's algorithm is not modelled.
- Fixture data: the large literal course, FAQ, question, file and chat fixtures of both `mockData.ts` files and of the question collection are parameters or small literals. The manual imported at src/app/test/dbly1/mockData.ts:1 is not part of this model.
- Floating point: an experiment's fractional `estimatedTime` in hours is a `real`, so floating-point rounding of the hour totals is not modelled.
- Rendering: JSX, icons, layouts, class names beyond the colour mappings listed above, and the UI-only components (`TodoForm`, `InputArea`, `MessageBubble`, `Sidebar`, the headers, `AuthButtons`, `ChatArea`, `QuestionCard`, `TodoFilter` and the like) are not modelled.
- `useTheme` and `useResponsive`: media queries, resize listeners and DOM class toggling are not modelled.
- src/lib/dashscope/client.ts is not part of this model. Its only logic, sending `session_id` only when it is truthy, is the rule modelled by `MultiChat.CallRequest`.
- src/test/test_aliyun_api.js is not part of this model: it only logs.
- ChatHook.Title: lengths and `slice` count Unicode code points, as Dafny strings do, where JavaScript counts UTF-16 code units. A content with characters outside the Basic Multilingual Plane gets a different title, and a cut inside a surrogate pair cannot be represented.
- DashScopeService.CompletionCount: the signals the piped transformer emits are an input. In Node the transformer's readable side is never read, so a normal stream emits `finish` but not `end`, and `onComplete` runs once. The model does not derive which signals occur.
- DashScopeService.AskQuestion: an `Answered` reply may carry any status. With axios's default `validateStatus` only 2xx statuses reach the `status !== 200` branch; every other status is thrown and reported through the thrown-error path. The same holds for `MultiChat.CallDashScope`.
- CourseAdmin.StatsOf: `toDateString` compares local calendar days; the model uses one fixed offset from UTC, so daylight-saving changes between the two instants are not modelled.
