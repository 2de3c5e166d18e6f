# Topanga interface: the patch pipeline and its clients, in Dafny

This project models the self-editing path of the Topanga interface and proves properties of the model.

**The admin server.** A small HTTP service guards a git working tree behind a bearer token. It accepts a unified diff in two steps:
- `/propose` checks the patch against a size ceiling and an allow-list of path prefixes. It requires a clean tree and dry-runs `git apply --check`. Then it records the patch under a fresh id, together with its SHA-256 digest.
- `/apply` takes the id and digest back, requires a clean tree again, and applies the stored patch.
- `/commit` and `/push` land the result.

**The clients of that pipeline, and the chat pieces around it:**
- The "auto" route asks the agent gateway for a patch and drives propose, apply, commit and push, stopping at the first failure.
- The chat page streams the agent's answer as server-sent events into its message list, and merges stored history from two sessions.
- The sync route copies gateway messages that the database lacks.
- The realtime gateway route turns a voice-tool action into an instruction for the agent.
- The realtime view reduces server events to a connection status and a transcript, and maps tool calls to gateway actions.

Files:

| file | module | models |
|---|---|---|
| `strings.dfy` | `Strings` | the JavaScript string built-ins the sources rely on: `trim`, `startsWith`, `indexOf`, `split`, `join`, `Buffer.byteLength` |
| `patch_policy.dfy` | `PatchPolicy` | the allow-list, `extractTouchedFiles`, `isAllowedPath`, the size gate |
| `admin_server.dfy` | `AdminServer` | the request handler as a specification function `Step` over the proposals file and an abstract working tree, and the `Server` class whose methods are proved against it |
| `chat_page.dfy` | `ChatPage` | the event-stream loop of `sendMessage`, the message-list updates, and the history merge, in the `Page` class |
| `auto_land.dfy` | `AutoLand` | `extractPatch` and the ordered admin pipeline of `POST` |
| `chat_sync.dfy` | `ChatSync` | the missing-message selection loop and the insert and count decision of `GET` |
| `realtime_gateway.dfy` | `RealtimeGateway` | action validation, instruction construction, and the mapping of the upstream answer |
| `realtime_view.dfy` | `RealtimeView` | `handleServerEvent`, `handleToolCall`, the connect and disconnect guards, and the status text and transcript view, in the `Session` class |

How the outside world enters the model:
- **Collaborators.** Git, SHA-256, UUIDs, the clock, `fetch`, `JSON.parse` and the database are not executed. They are parameters:
  - each git command's outcome (its output or its error message), a fresh id and the time arrive with each admin request;
  - the digest is a function fixed when the server is built;
  - the gateway, the admin server and the database are functions from the request sent to the answer received, or given values.
- **The working tree** is abstract. It records the patches applied since the last commit, whether someone else left uncommitted edits, the commits made and how many were pushed. The model's rule for `git status --porcelain` is that it is clean exactly when no patch is applied and there are no foreign edits. Real git can differ: a patch that `--whitespace=fix` reduces to no change, or one that touches only ignored paths, leaves it empty.
- **The proposals file** is `Missing`, `Corrupt` or `Intact(map)`; the first two load as the empty map.
- **Methods against functions.** Where the source changes state step by step, a class holds that state. Its methods are proved against a specification function:
  - `Server.Handle` against `AdminServer.Step`;
  - `Page.Receive` against `ChatPage.StreamOutcome`;
  - `Session.OnEvent` against `RealtimeView.ReduceEvent`.

  The lemmas are stated about the specification functions.

Error paths of the admin server, as the code has them:
- **Malformed JSON.** A malformed request body reaches the catch-all handler and gets 500 with the parse error's message.
- **Oversized patch.** A patch over the byte ceiling gets 413.
- **Unknown route.** A path the server does not serve gets 404 `not found` after the token check.
- **Stored proposals are trusted.** `/apply` checks the id, the digest and a clean tree, and does not re-check the stored files against the allow-list. A proposals file written under other `ALLOWED_PREFIXES`, or edited by hand, is loaded and applied as it is (`AdminServer.ApplyIgnoresCurrentPolicy`). The `Server` class therefore accepts any proposals file; its `Valid()` says the file meets the current policy, and each method keeps it once it holds.

One consequence of the code is proved rather than changed. `AdminServer.OldSideNotInspected` shows that the allow-list gate inspects only `+++ b/` lines. A deletion, which git writes as `--- a/<path>` and `+++ /dev/null`, therefore names no checked file. Such a deletion passes the gate whenever another file in the same patch is allowed.

## Model

| member | source | states |
|---|---|---|
| Strings.Trim | admin-server/server.js:60 | String.prototype.trim: the result neither starts nor ends with whitespace (with `TrimShape`: it is the infix left after removing only whitespace) |
| Strings.IndexOf | frontend/app/api/admin/auto/route.js:36 | the first position where the pattern occurs, or none exactly when it occurs nowhere |
| Strings.Split | admin-server/server.js:57 | String.prototype.split with a string separator: at least one piece and no piece holds the separator (with `SplitJoin`: joining gives the text back) |
| Strings.Utf8Length | admin-server/server.js:122 | Buffer.byteLength(s, "utf8"): the sum of the UTF-8 widths of the characters (with `Utf8LengthBounds`: between the length and four times it) |
| PatchPolicy.FileOfLine | admin-server/server.js:59-61 | defines the file a line names: the trimmed rest after `+++ b/`, unless it is `/dev/null` |
| PatchPolicy.TouchedFiles | admin-server/server.js:55-65 | defines extractTouchedFiles on values; characterised by `TouchedFilesCharacterization` |
| PatchPolicy.TooLarge | admin-server/server.js:122 | defines the size gate on UTF-8 bytes; related to the length by `TooLargeByLength` |
| AdminServer.Authorized | admin-server/server.js:100-108 | defines requireAuth; characterised by `AuthorizedIff` |
| AdminServer.StoreInvariant | admin-server/server.js:129-138 | defines a well-formed proposals file: each digest is that of its patch, and each file list is the patch's touched files, non-empty and allowed; kept by `StepPreservesStoreInvariant` |
| AdminServer.ProposeStep | admin-server/server.js:118-139 | defines `/propose`; its behaviour is stated by `ProposeRejections`, `ProposeRefusedByGit`, `ProposeRecords` and `ProposeKeepsTree` |
| AdminServer.ApplyStep | admin-server/server.js:141-156 | defines `/apply`; its behaviour is stated by `ApplyRejections`, `ApplyUsesStoredPatch` and `ApplyIgnoresCurrentPolicy` |
| AdminServer.CommitStep | admin-server/server.js:158-164 | defines `/commit`; its behaviour is stated by `CommitBehaviour` |
| AdminServer.PushStep | admin-server/server.js:166-169 | defines `/push`; its behaviour is stated by `PushBehaviour` |
| AdminServer.Step | admin-server/server.js:110-175 | defines one request: the token gate, then routing by method and path, else 404; stated by `UnauthorizedChangesNothing`, `StepStore` and `StepPreservesStoreInvariant` |
| ChatPage.ClassifyPart | frontend/app/page.jsx:97-104 | defines how one event is read; characterised by `ClassifyPartCases` |
| ChatPage.Framing | frontend/app/page.jsx:91-94 | defines the split at blank lines into complete events and the new buffer; stated by `FramingShape` |
| ChatPage.StreamOutcome | frontend/app/page.jsx:71-133 | defines the list after a reply: error text on a failed fetch, an HTTP error or no body, otherwise the stream folded in and a read error reported unless `[DONE]` came first; stated by `StreamKeepsEarlier` and `DoneStopsProcessing` |
| ChatPage.HistoryOutcome | frontend/app/page.jsx:41-56 | defines the history effect; stated by `HistoryMerge` |
| AutoLand.CommitSubject | frontend/app/api/admin/auto/route.js:100 | defines `instruction.slice(0, 72) || "Update"`; stated by `CommitSubjectIsPrefix` |
| AutoLand.StepFailure | frontend/app/api/admin/auto/route.js:91-108 | defines a failed step's reply: the catch-all on a throw, else 500 with the answer's text or `<Step> failed`; used by `CallStep` |
| ChatSync.IsMissing | frontend/app/api/chat/sync/route.js:51-56 | defines the loop's filters; stated by `MissingRowsSingle`, `MissingRowsComplete` and `StoredNeverSelected` |
| ChatSync.RowOf | frontend/app/api/chat/sync/route.js:57-62 | defines the inserted row: main session, the message's role and text, its timestamp or else now |
| RealtimeView.ReduceEvent | frontend/components/RealtimeView.jsx:345-434 | defines handleServerEvent; stated by `StatusEventsSetStatus`, `TranscriptEventsAppend`, `ErrorEventKeepsStatus`, `UnhandledEventsIgnored`, `ToolCallOnlyOnArgumentsDone`, `TranscriptOnlyGrows` and `EventsOnlyActivate` |
| RealtimeView.HandleToolCall | frontend/components/RealtimeView.jsx:121-181 | defines handleToolCall; stated by `UnknownToolNotSent`, `KnownToolReachesUpstream` and `ResultSentWhenOpen` |
| RealtimeView.IsActive | frontend/components/RealtimeView.jsx:454 | defines isActive: connected, speaking or listening |
| PatchPolicy.NonBlankEntries | admin-server/server.js:13 | every kept entry is non-empty and has no surrounding whitespace |
| PatchPolicy.NonBlankEntriesMembership | admin-server/server.js:13 | a string is an entry exactly when it is the non-empty trim of some comma-separated piece |
| PatchPolicy.AllowedPrefixes | admin-server/server.js:13 | no allowed prefix is the empty string, whatever the variable holds |
| PatchPolicy.AllowedPrefixesMembership | admin-server/server.js:13 | for a configured list, the prefixes are exactly the non-empty trimmed pieces of the comma split |
| PatchPolicy.ExtractTouchedFiles | admin-server/server.js:55-65 | the loop returns exactly `TouchedFiles(patch)` |
| PatchPolicy.TouchedFilesCharacterization | admin-server/server.js:55-65 | a file is listed exactly when some line starts with `+++ b/` and its trimmed remainder is that file and is not `/dev/null` |
| PatchPolicy.FilesOfLinesAppend | admin-server/server.js:58-63 | the files of concatenated lines are the concatenated files: line order is kept and duplicates are not merged |
| PatchPolicy.FilesOfLinesMembership | admin-server/server.js:58-63 | a file is collected exactly when some line names it |
| PatchPolicy.IsAllowedPath | admin-server/server.js:67-69 | true exactly when some prefix equals the path or is a prefix of it |
| PatchPolicy.AllowedIffSomePrefix | admin-server/server.js:67-69 | the equality test is subsumed: allowed exactly when some configured prefix starts the path |
| PatchPolicy.AllowedUnion | admin-server/server.js:67-69 | two prefix lists together allow a path exactly when one of them does, so adding prefixes never disallows a path |
| PatchPolicy.Disallowed | admin-server/server.js:126 | the result holds exactly the listed files that are not allowed, and is empty exactly when all files are allowed |
| PatchPolicy.DisallowedAppend | admin-server/server.js:126 | filtering keeps the files' order |
| PatchPolicy.TooLargeByLength | admin-server/server.js:122 | more characters than the ceiling is always too large; an ASCII patch is too large exactly when it has more characters than the ceiling |
| AdminServer.AuthorizedIff | admin-server/server.js:100-108 | a request passes exactly when the server token is non-empty and the header is `Bearer ` followed by exactly that token |
| AdminServer.UnauthorizedChangesNothing | admin-server/server.js:100-112 | a request that fails the gate, and every request when the token is empty, gets 401 and changes neither store nor tree |
| AdminServer.ProposeKeepsTree | admin-server/server.js:118-139 | `/propose` never changes the working tree |
| AdminServer.ProposeRejections | admin-server/server.js:120-127 | a missing or non-string patch gives 400; too many UTF-8 bytes gives 413; no touched files gives 400; any disallowed file gives 400 listing exactly the disallowed files in order; none of these changes the state |
| AdminServer.ProposeRefusedByGit | admin-server/server.js:129-130 | a valid patch on a dirty tree gives 500 `Repo is not clean…`; a failing dry run gives 500 with git's message; neither stores anything |
| AdminServer.ProposeRecords | admin-server/server.js:129-138 | the store changes only on a 200, which needs a clean tree and a passing dry run; it adds exactly one entry, with digest `sha256(patch)`, the time and the extracted files; the reply repeats the stored id, digest and files |
| AdminServer.ApplyRejections | admin-server/server.js:143-155 | a missing id or hash gives 400; an unknown id gives 404; a wrong digest gives 400; a known id with the matching digest on a dirty tree gives 500 `Repo is not clean…`; none of these changes the state |
| AdminServer.ApplyUsesStoredPatch | admin-server/server.js:141-156 | `/apply` never changes the store. It changes the tree only by applying the stored patch of the named proposal, on a clean tree, after the digest matched |
| AdminServer.ApplyIgnoresCurrentPolicy | admin-server/server.js:141-156 | any stored proposal confirmed with its id and digest is applied on a clean tree, whatever its files; the allow-list is not checked again |
| AdminServer.SecondApplyFails | admin-server/server.js:141-156 | after an apply took effect, the same request fails the clean check and changes nothing |
| AdminServer.ProposeThenApply | admin-server/server.js:118-156 | a successful proposal confirmed with its id and digest applies exactly the proposed patch and returns the diff |
| AdminServer.CommitBehaviour | admin-server/server.js:158-164 | a missing or non-string message gives 400 with no commit; a successful commit captures all uncommitted changes and leaves the tree clean; a failure changes nothing |
| AdminServer.ApplyThenCommit | admin-server/server.js:141-164 | apply then commit records the one applied patch in one new commit and the tree is clean again |
| AdminServer.PushBehaviour | admin-server/server.js:166-169 | push succeeds exactly when git push does and then marks every commit pushed; a failure changes nothing |
| AdminServer.StepStore | admin-server/server.js:110-175 | a request either leaves the proposals as they were or adds one entry for a patch with non-empty, allowed touched files, recording its digest and the time |
| AdminServer.StepPreservesStoreInvariant | admin-server/server.js:110-175 | every request keeps each stored proposal's digest equal to `sha256(patch)` and its files equal to its non-empty, allowed touched files |
| AdminServer.OldSideNotInspected | admin-server/server.js:55-65 | a `--- ` old-side header contributes no file, and `+++ /dev/null` names none either |
| AdminServer.Server.constructor | admin-server/server.js:11-15 | the server starts from the given configuration, proposals file and tree, whatever the file holds; `Valid()` holds exactly when the file meets the current policy |
| AdminServer.Server.LoadProposals | admin-server/server.js:38-45 | a missing or corrupt file loads as no proposals |
| AdminServer.Server.SaveProposals | admin-server/server.js:47-49 | the file is rewritten with exactly the given map |
| AdminServer.Server.EnsureCleanRepo | admin-server/server.js:71-76 | fails, with the `Repo is not clean` message, exactly when the tree is dirty |
| AdminServer.Server.Handle | admin-server/server.js:110-175 | new state and reply are those of `Step`, on any proposals file; a valid store stays valid |
| AdminServer.Server.Propose | admin-server/server.js:118-139 | new state and reply are those of `ProposeStep`, on any proposals file; a valid store stays valid |
| AdminServer.Server.Apply | admin-server/server.js:141-156 | new state and reply are those of `ApplyStep`, on any proposals file; a valid store stays valid |
| AdminServer.Server.CommitAll | admin-server/server.js:158-164 | new state and reply are those of `CommitStep`, on any proposals file; a valid store stays valid |
| AdminServer.Server.Push | admin-server/server.js:166-169 | new state and reply are those of `PushStep`, on any proposals file; a valid store stays valid |
| ChatPage.StripDataField | frontend/app/page.jsx:99 | removes `data:` and at most one following whitespace character: the payload directly follows `data:` unless that character is whitespace |
| ChatPage.ClassifyPartCases | frontend/app/page.jsx:97-104 | an event is ignored exactly when its trimmed text does not start with `data:`; it is the end marker exactly when its payload is `[DONE]`; otherwise it carries that payload |
| ChatPage.AppendDelta | frontend/app/page.jsx:108-117 | a non-empty delta extends the last message's text, as an assistant message; length and all earlier messages are unchanged; an empty delta changes nothing |
| ChatPage.ReplaceLast | frontend/app/page.jsx:124-130 | only the last message is replaced, by an assistant message with the error text; length is unchanged |
| ChatPage.FeedParts | frontend/app/page.jsx:96-122 | the events of a chunk keep the list's length |
| ChatPage.FeedAll | frontend/app/page.jsx:88-123 | reading the stream keeps the list's length |
| ChatPage.FramingShape | frontend/app/page.jsx:91-94 | the processed events and the new buffer, joined with blank lines, are the old buffer followed by the chunk; neither an event nor the new buffer holds a blank line |
| ChatPage.FeedPartsKeepsEarlier | frontend/app/page.jsx:96-122 | the events of a chunk change only the last message |
| ChatPage.FeedAllKeepsEarlier | frontend/app/page.jsx:88-123 | the whole stream changes only the last message |
| ChatPage.StreamKeepsEarlier | frontend/app/page.jsx:71-133 | however the reply goes (stream, HTTP error, no body, read error), length and all messages but the last are unchanged |
| ChatPage.DoneStopsProcessing | frontend/app/page.jsx:101-104 | after `[DONE]`, later chunks change nothing |
| ChatPage.FeedPartsFirst | frontend/app/page.jsx:96-122 | an ignored event changes nothing; `[DONE]` ends the chunk with the list as it is; a data event appends its delta and continues |
| ChatPage.Entries | frontend/app/page.jsx:42-48 | a session contributes one entry per row when its messages are an array, and none otherwise |
| ChatPage.FlattenMembership | frontend/app/page.jsx:41-48 | the combined list holds every row of every session and nothing else |
| ChatPage.InsertByTime | frontend/app/page.jsx:51 | inserting keeps the list sorted by `created_at` and adds exactly the one element |
| ChatPage.SortByTime | frontend/app/page.jsx:51 | the result is sorted ascending by `created_at` and is a permutation of the input |
| ChatPage.Untimed | frontend/app/page.jsx:52 | keeps the order and drops only the timestamps |
| ChatPage.HistoryMerge | frontend/app/page.jsx:41-53 | with no rows the list is untouched; otherwise it is all rows, sorted by time, as a permutation of the combined list; a failed fetch changes nothing |
| ChatPage.Page.constructor | frontend/app/page.jsx:18-22 | the page starts with the greeting, an empty input and no send in progress |
| ChatPage.Page.SetInput | frontend/app/page.jsx:162 | the input becomes the typed text |
| ChatPage.Page.Submit | frontend/app/page.jsx:64-69 | with a blank input or a send in progress nothing changes; otherwise exactly the trimmed user message and one empty assistant placeholder are appended, the input is cleared and sending is set |
| ChatPage.Page.Receive | frontend/app/page.jsx:71-133 | the list becomes `StreamOutcome` of the reply and sending is cleared |
| ChatPage.Page.ReadStream | frontend/app/page.jsx:84-123 | the read loop yields `StreamOutcome` of a streamed reply |
| ChatPage.Page.FeedEvents | frontend/app/page.jsx:96-122 | the inner loop yields `FeedParts`, and reports whether `[DONE]` ended it |
| ChatPage.Page.SendMessage | frontend/app/page.jsx:62-134 | nothing happens exactly when the input is blank or a send is in progress; otherwise the reply is folded into the list with the new user message and placeholder |
| ChatPage.Page.Combine | frontend/app/page.jsx:41-48 | the nested loops build exactly `Flatten(results)` |
| ChatPage.Page.LoadHistory | frontend/app/page.jsx:32-56 | the list becomes `HistoryOutcome` |
| AutoLand.ExtractPatch | frontend/app/api/admin/auto/route.js:34-38 | the patch has no surrounding whitespace and is no longer than the text |
| AutoLand.TrimKeepsDiffHeader | frontend/app/api/admin/auto/route.js:36-37 | trimming a text that starts with `diff --git` keeps that start |
| AutoLand.ExtractPatchFound | frontend/app/api/admin/auto/route.js:36-37 | with `diff --git` present, the patch is the trimmed suffix from its first occurrence and starts with it |
| AutoLand.ExtractPatchNotFound | frontend/app/api/admin/auto/route.js:37 | without `diff --git`, the patch is the whole text trimmed and holds no `diff --git` |
| AutoLand.ExtractPatchIdempotent | frontend/app/api/admin/auto/route.js:34-38 | extracting from an extracted patch changes nothing |
| AutoLand.CommitSubjectIsPrefix | frontend/app/api/admin/auto/route.js:100 | for a non-blank instruction the commit message is its first min(72, length) characters; the `Update` fallback never applies |
| AutoLand.CallStep | frontend/app/api/admin/auto/route.js:90-108 | one admin step is recorded, and fails exactly when its answer is not ok, with 500 and its text or `<Step> failed` |
| AutoLand.Land | frontend/app/api/admin/auto/route.js:90-110 | propose, apply, commit and push run in that order; each runs exactly when the previous one succeeded; apply gets propose's id and hash; the first failure decides the reply; 200 exactly when all four succeeded, returning the patch |
| AutoLand.Post | frontend/app/api/admin/auto/route.js:40-114 | a blank instruction gives 400 and missing configuration gives 500, with no outbound call. Gateway errors map to the gateway's status or 502; an ok JSON answer always leads to the propose call. Admin calls run propose, apply, commit, push, each exactly when the previous succeeded; the first failure gives 500. Apply gets propose's id and hash; the commit message is the instruction's prefix. 200 means all four succeeded and returns the proposed patch |
| ChatSync.MissingRows | frontend/app/api/chat/sync/route.js:46-64 | every selected row is in the main session, not a system message, has non-blank content, and its trimmed content is not stored |
| ChatSync.MissingRowsAppend | frontend/app/api/chat/sync/route.js:49-64 | selection keeps gateway order and does not collapse repeats |
| ChatSync.MissingRowsSingle | frontend/app/api/chat/sync/route.js:49-63 | one message is selected exactly when it passes the filters |
| ChatSync.MissingRowsComplete | frontend/app/api/chat/sync/route.js:49-63 | every message passing the filters is selected, with its role |
| ChatSync.StoredNeverSelected | frontend/app/api/chat/sync/route.js:47-56 | a message whose trimmed text matches a stored row's trimmed content is not selected |
| ChatSync.SelectMissing | frontend/app/api/chat/sync/route.js:46-64 | the loop with its `continue` guards builds exactly `MissingRows` |
| ChatSync.Sync | frontend/app/api/chat/sync/route.js:13-81 | a missing token gives 500 before any call. Gateway and database failures map to their 500 texts. An insert happens exactly when the selection is non-empty, and carries it. 200 reports `synced` as the selection's length and the gateway count |
| RealtimeGateway.Instruction | frontend/app/api/realtime/gateway/route.js:19-47 | an instruction exists exactly when the action is one of the five known strings |
| RealtimeGateway.Handle | frontend/app/api/realtime/gateway/route.js:6-104 | a successful response always follows an upstream call and has status 200 |
| RealtimeGateway.MissingActionRejected | frontend/app/api/realtime/gateway/route.js:11-16 | a missing or falsy action gives 400 `Missing action parameter` with no upstream call |
| RealtimeGateway.UnknownActionRejected | frontend/app/api/realtime/gateway/route.js:42-46 | any other action gives 400 `Unknown action: <action>` with no upstream call |
| RealtimeGateway.SendMessageFormat | frontend/app/api/realtime/gateway/route.js:22-24 | the message names recipient and quoted text; it ends with ` via <channel>` when a channel is given and with the closing quote otherwise |
| RealtimeGateway.OtherActionsFormat | frontend/app/api/realtime/gateway/route.js:26-40 | each other action is its fixed prefix followed by the command, query, path, or path and content |
| RealtimeGateway.UpstreamMapping | frontend/app/api/realtime/gateway/route.js:50-92 | a known action sends its instruction; unreachable gives 500; non-ok gives `success: false` with the upstream status and error; ok gives `success: true` with the content or `Request completed` |
| RealtimeGateway.InstructionUsesNamedParams | frontend/app/api/realtime/gateway/route.js:19-40 | the instruction depends only on the parameters its template names; any other field is ignored |
| RealtimeView.StatusEventsSetStatus | frontend/components/RealtimeView.jsx:355-394 | speech start listens; speech stop, audio done and response done connect; audio and transcript deltas speak; nothing else changes |
| RealtimeView.TranscriptEventsAppend | frontend/components/RealtimeView.jsx:396-408 | a finished user or assistant transcript with text appends exactly one entry with that role; an empty one changes nothing |
| RealtimeView.ErrorEventKeepsStatus | frontend/components/RealtimeView.jsx:419-422 | an error event sets the error text, or `Unknown error`, and keeps status and transcript |
| RealtimeView.UnhandledEventsIgnored | frontend/components/RealtimeView.jsx:346-433 | events outside the handled types change neither status nor transcript nor error |
| RealtimeView.ToolCallOnlyOnArgumentsDone | frontend/components/RealtimeView.jsx:410-417 | a tool call is started exactly by a finished function-call event, with its name, call id and arguments |
| RealtimeView.TranscriptOnlyGrows | frontend/components/RealtimeView.jsx:345-434 | each event keeps the transcript as a prefix and adds at most one entry |
| RealtimeView.ToolAction | frontend/components/RealtimeView.jsx:133-151 | a tool has an action exactly when it is one of the five tool names |
| RealtimeView.ToolActionsMatchGateway | frontend/components/RealtimeView.jsx:133-151 | `send_message`, `run_command`, `search_web`, `write_file`, `read_file` map to `message.send`, `command.run`, `search.web`, `file.write`, `file.read`, the gateway route's actions |
| RealtimeView.GatewayRequest | frontend/components/RealtimeView.jsx:158 | the body holds the action and every argument; an `action` argument overrides the mapped action |
| RealtimeView.UnknownToolNotSent | frontend/components/RealtimeView.jsx:149-153 | an unknown tool gives `Unknown tool: <name>` and no gateway call |
| RealtimeView.KnownToolReachesUpstream | frontend/components/RealtimeView.jsx:153-160 | a known tool whose arguments name no action reaches the gateway route, which then sends an instruction upstream |
| RealtimeView.ResultSentWhenOpen | frontend/components/RealtimeView.jsx:166-180 | the result and a `response.create` are sent back exactly when the channel is open |
| RealtimeView.EventsOnlyActivate | frontend/components/RealtimeView.jsx:345-434 | a server event keeps an active session active (as `isActive` at line 454 reads the status), and an event that changes the status makes it active, so a late status event after a disconnect shows the view connected again |
| RealtimeView.StatusText | frontend/components/RealtimeView.jsx:460-470 | every status has a non-empty text |
| RealtimeView.StatusTextUsesErrorOnlyInError | frontend/components/RealtimeView.jsx:460-470 | the error text matters only in the error status |
| RealtimeView.Visible | frontend/components/RealtimeView.jsx:614 | at most the last five entries are shown, as a suffix of the transcript |
| RealtimeView.LatestEntryShown | frontend/components/RealtimeView.jsx:614 | the newest entry is always shown, last |
| RealtimeView.Session.constructor | frontend/components/RealtimeView.jsx:44-47 | idle, no error, empty transcript |
| RealtimeView.Session.Connect | frontend/components/RealtimeView.jsx:184-188 | a no-op exactly when connecting or connected; otherwise connecting with the error cleared |
| RealtimeView.Session.Fail | frontend/components/RealtimeView.jsx:337-341 | error status with the given message |
| RealtimeView.Session.ChannelOpened | frontend/components/RealtimeView.jsx:279-285 | connected |
| RealtimeView.Session.OnEvent | frontend/components/RealtimeView.jsx:287-299 | new state and tool call are those of `ReduceEvent` |
| RealtimeView.Session.Disconnect | frontend/components/RealtimeView.jsx:437-441 | idle with an empty transcript |
| RealtimeView.Session.Toggle | frontend/components/RealtimeView.jsx:531-533 | when active it disconnects; while connecting it is disabled; from idle or error it always starts connecting |

## Left out

- Git execution: `execFile` and the six git commands are not run. Each command's outcome arrives with the request. A commit with nothing staged is therefore not derived from the tree: the outcome decides.
- `git status` failing: the model's clean check always answers, so a failing `git status` (a 500 in the code) is not modelled.
- SHA-256: the digest is an uninterpreted function. UUIDs and `Date.now()` are inputs.
- JSON persistence: the proposals file is a value. Its serialisation is not modelled.
- `readBody`'s 2 MB limit and the HTTP server plumbing: transport, not handler logic.
- The concurrent-apply race: the model is sequential; each request runs to completion.
- JavaScript objects as maps: ids that are not strings, and inherited keys such as `constructor` (which the code finds on every object), are not modelled.
- `MAX_PATCH_BYTES`: a value that is not numeric (`NaN` in the code, which disables the gate) and `ADMIN_PORT` are not modelled. The ceiling is a natural number.
- `JSON.parse`, `TextDecoder` and `Date`:
  - the stream's deltas are a function of the payload;
  - chunks arrive as decoded text;
  - `created_at` is an integer, so unparsable dates (`NaN` in the sort comparator) are not modelled.
- `Array.prototype.sort`: modelled as a functional insertion sort on sequences rather than an in-place sort. Its stability is not proved.
- `ChatPage.Page`: React state batching, stale closures and re-renders are not modelled; state updates are applied in program order.
- Session ids and `localStorage` (`getSessionId`), scrolling and rendering in `frontend/app/page.jsx`: UI.
- `AutoLand.Post`:
  - the request bodies' headers, the Cloudflare access headers and the fixed system prompt are not modelled;
  - a gateway `content` that is not a string (which would make `extractPatch` throw) is not modelled;
  - `slice(0, 72)` counts UTF-16 code units and the model counts Unicode scalar values, so the two differ for characters outside the Basic Multilingual Plane.
- `ChatSync.Sync`: `createdAt` is the integer timestamp, not its ISO string; a timestamp beyond the range `Date` accepts (more than 8.64e15 in magnitude), which makes `toISOString` throw and the route answer 500, is not modelled. A stored row whose content is not a string (which makes `trim` throw) is not modelled. The database's own ordering and limit of 50 are the collaborator's.
- `RealtimeGateway.Handle`: the `details` field of the 500 response, the request headers and the model name are not modelled. A JSON `error` object without a message, which the code passes through as an object, is reduced to its text.
- `RealtimeView`:
  - WebRTC, the microphone, `AudioContext`, SDP exchange and the audio-intensity animation (floating point) are not modelled; their failures enter only as `Session.Fail` with a message;
  - mute toggling and arguments that parse to a non-object are not modelled.
- Outbound-only routes (`chat`, `chat/stream`, `chat/save`, `chat/history`, `health`, `tts`, `test-db`, `realtime/token`, `admin/_proxy.js`), the UI components, and `backend/app/main.py`: pass-through wrappers or rendering with no logic of their own.
- Diffs: the content of `git diff` output is opaque text; the model does not relate it to the applied patch.
