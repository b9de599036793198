# A verified model of the Manus agent workspace

This project models, in Dafny, the core of a coding-agent application: a Python backend that lets a
language model work inside a per-session workspace directory, and a React frontend that shows the
conversation, the files and the terminal.

- **File store** (`workspace.dfy`, over `paths.dfy`): `FileManager` guards every user path with
  `_resolve_path` and then writes, reads, lists (as a `FileNode` tree) or deletes. The disk is a map
  from absolute paths to files and directories, shared by the file store and the command sandbox.
- **Command sandbox** (`sandbox.dfy`): `SandboxExecutor` refuses commands that contain a blocked
  command or dangerous pattern, refuses working directories the path guard rejects, creates the
  working directory, and reports the process outcome with each output stream truncated.
- **Tool gateway** (`gateway.dfy`): `execute_tool` sends a model's tool call to one of the two
  services and formats the text the model reads back. `_format_tree` draws a listing as an ASCII tree.
- **Agent loop** (`orchestrator.dfy`): `process_message` streams the model's reply. It runs the
  first tool use of each complete message and feeds the result back, for at most ten rounds. It
  yields `message_chunk`, `tool_use_start`, `agent_action`, `terminal_output`, `message_complete`
  and `error` events.
- **Frontend store** (`store.dfy`): the actions of the client-side state store (open files, chat
  messages, plan steps, agent actions, projects, terminal text, sending a chat message).
- **Editor language** (`editor.dfy`): `getLanguage`, which picks the highlighting language from a
  file name.
- `text.dfy` holds the string operations the others share: substring search, ASCII lower-casing,
  whitespace stripping, code-point ordering, decimal rendering, `str.replace`, and UTF-8 length.

The services are classes over a shared `Disk` object, and their methods change it in place. Each
method is proved equal to a function of the old disk (`Write`, `Read`, `Delete`, `List`, `Run`,
`Execute`, `Process`). The lemmas state what the code promises about those functions. The frontend
store is a class whose actions are proved against pure transitions on a `StoreState` value.

The model follows the code as written, also where it does something other than its own comments
and names suggest. Each such behaviour is a lemma about the code as written:

- The path guard compares the resolved path with the workspace root as strings. A sibling directory
  whose name extends the session id therefore passes. The code's own docstring and comment
  (manus-backend/app/services/file_manager.py:27-28 and :33) say the path must stay inside the
  workspace, but `Paths.SiblingEscapes` and `Workspace.WriteEscapes` show "../s12/x" accepted from session `s1`.
  `Paths.ResolveSpec` characterises exactly what is accepted.
- `read_file` opens in text mode, so "\r\n" and "\r" read back as "\n" (`Workspace.WriteThenRead`).
- The blocked entry "chmod -R 777 /" can never match, because the command is lower-cased first
  (`Sandbox.ChmodEntryIsDead`). The command it names is accepted (`Sandbox.ChmodCommandAccepted`).
- The agent-action type of `list_files` is "file_lists" (`Gateway.ActionKindList`).
- `write_file` reports the character count as the size in bytes, while the limit counts UTF-8 bytes
  (`Workspace.SizeCountsCharacters`).
- Only the first tool use of a message is answered (`Orchestrator.SecondToolUseUnanswered`). The
  client's `error` chunks are ignored (`Orchestrator.StreamErrorIgnored`).
- `getLanguage` looks the extension up in a plain object, so "x.constructor" and "x.__proto__" get an
  inherited member instead of a language name (`Editor.InheritedLookup`).

## Model

| member | source | states |
|---|---|---|
| Text.Contains | manus-backend/app/services/sandbox.py:41 | `pat in s` as a left-to-right scan (see `Text.ContainsIffOccurs`) |
| Text.ContainsIffOccurs | manus-backend/app/services/sandbox.py:41 | the scan finds `pat` exactly when `pat` occurs at some offset of `s` |
| Text.ContainsLower | manus-backend/app/services/sandbox.py:38-42 | an occurrence of a pattern survives lower-casing both the command and the pattern |
| Text.StripLeft | manus-backend/app/services/sandbox.py:38 | the result is a suffix; everything removed is whitespace; it does not start with whitespace |
| Text.StripRight | manus-backend/app/services/sandbox.py:38 | the result is a prefix; everything removed is whitespace; it does not end with whitespace |
| Text.ContainsStrip | manus-backend/app/services/sandbox.py:38-42 | `strip()` never removes an occurrence of a pattern that starts and ends with non-whitespace |
| Text.SortedSet | manus-backend/app/services/file_manager.py:162 | `sorted` of distinct names: strictly ascending in code-point order, with exactly the given names |
| Text.NatToString | manus-frontend/src/store.ts:155 | the decimal text of a clock reading is non-empty, all digits, without a leading zero (except "0"), and reads back as the number |
| Text.NatToStringInjective | manus-frontend/src/store.ts:155 | different clock readings give different texts |
| Text.Utf8Length | manus-backend/app/services/file_manager.py:58 | `len(s.encode('utf-8'))` lies between one and four bytes per character |
| Text.Utf8LengthAscii | manus-backend/app/services/file_manager.py:58 | for ASCII text, the byte count equals the character count |
| Paths.Split | manus-backend/app/services/file_manager.py:32 | splitting on '/' gives at least one part, and no part holds a '/' |
| Paths.SplitJoin | manus-backend/app/services/file_manager.py:32 | joining the parts with '/' gives back the path |
| Paths.Components | manus-backend/app/services/file_manager.py:32 | the parsed components are never empty or "." and hold no '/' |
| Paths.NormalizePlain | manus-backend/app/services/file_manager.py:32 | `resolve()` yields only plain components (no "", ".", "..") |
| Paths.ResolvedPlain | manus-backend/app/services/file_manager.py:32 | every resolved join of the root and a user path is made of plain components |
| Paths.RenderSegsPrefix | manus-backend/app/services/file_manager.py:35 | a rendered path is a string prefix of another exactly when it is a component prefix or collides on its last component |
| Paths.AcceptedIff | manus-backend/app/services/file_manager.py:35 | the `startswith` test accepts exactly the paths at or under the root, plus last-component collisions |
| Paths.ResolveSpec | manus-backend/app/services/file_manager.py:18-38 | `_resolve_path` returns the lexical resolution of root/path exactly when it is at or under the root or collides with it, and fails otherwise |
| Paths.ResolveInside | manus-backend/app/services/file_manager.py:31-38 | a path that resolves under the root is accepted, with the root as prefix |
| Paths.ResolveDot | manus-backend/app/services/file_manager.py:31-38 | "." and "" resolve to the root itself and are accepted |
| Paths.ResolveAncestorDenied | manus-backend/app/services/file_manager.py:34-36 | a path that resolves to a proper ancestor of the root is denied |
| Paths.ResolveCollides | manus-backend/app/services/file_manager.py:34-38 | a resolved path that collides with the root's last component is accepted, although it is not under the root |
| Paths.SiblingEscapes | manus-backend/app/services/file_manager.py:31-38 | from the root `/tmp/manus-workspaces/s1`, "../s12/x" is accepted and lies outside the workspace |
| Workspace.MkdirsSpec | manus-backend/app/services/file_manager.py:55 | `mkdir(parents=True, exist_ok=True)` succeeds exactly when the target is not a file and no ancestor is a file; it keeps every entry and adds only directories on the way to the target |
| Workspace.Universal | manus-backend/app/services/file_manager.py:106-107 | text read back holds no carriage return and is no longer than what was stored |
| Workspace.UniversalIdentity | manus-backend/app/services/file_manager.py:106-107 | text without carriage returns reads back unchanged |
| Workspace.UniversalIdempotent | manus-backend/app/services/file_manager.py:106-107 | newline translation applied twice is applied once |
| Workspace.UniversalCrLf | manus-backend/app/services/file_manager.py:106-107 | "a\r\nb" reads back as "a\nb" |
| Workspace.RemoveTreeSpec | manus-backend/app/services/file_manager.py:210-214 | on a well-formed disk, `unlink`/`rmtree` remove the target and everything under it, keep every other entry unchanged, keep the parent directory, and leave the disk well formed |
| Workspace.FileIsLeaf | manus-backend/app/services/file_manager.py:210-211 | removing a regular file removes exactly that entry |
| Workspace.ResolvedShape | manus-backend/app/services/file_manager.py:18-38 | an accepted path is plain and never `/`, so it has a parent |
| Workspace.WriteKeepsWellFormed | manus-backend/app/services/file_manager.py:40-78 | writing keeps the disk a well-formed tree |
| Workspace.WriteArgsKeepsWellFormed | manus-backend/app/services/file_manager.py:40-78 | the same holds when the path or the content is missing |
| Workspace.WriteFrame | manus-backend/app/services/file_manager.py:51-63 | a write (successful or not) changes no entry except its target, and adds only the target and directories above it; a denied path changes nothing |
| Workspace.WriteThenRead | manus-backend/app/services/file_manager.py:40-115 | a successful write reports the character count, the content fits the byte limit, and a later read returns the content after newline translation |
| Workspace.WrittenRead | manus-backend/app/services/file_manager.py:90-115 | reading a stored file returns its newline-translated text |
| Workspace.WriteThenReadExact | manus-backend/app/services/file_manager.py:40-115 | content without carriage returns reads back exactly |
| Workspace.WriteTooLarge | manus-backend/app/services/file_manager.py:54-59 | content over the byte limit is refused; existing entries are untouched, but parent directories stay created |
| Workspace.SizeCountsCharacters | manus-backend/app/services/file_manager.py:58-70 | "é" is two bytes for the limit, but its reported size is one |
| Workspace.ReadSucceedsIff | manus-backend/app/services/file_manager.py:90-122 | a read succeeds exactly on an accepted path that is a regular file; a denied path fails with the guard's error, a missing one with "not found", a directory with "not a file", and a file whose bytes are not UTF-8 with the decoder's error |
| Workspace.ListSucceedsIff | manus-backend/app/services/file_manager.py:134-151 | a listing succeeds exactly on an accepted path that is a directory under the root; a denied path, a missing one and a regular file fail with the guard's error, "directory not found" and "not a directory" |
| Workspace.DeleteSucceedsIff | manus-backend/app/services/file_manager.py:201-214 | a delete succeeds exactly on an accepted path that exists; a denied or missing path fails with its error and leaves the disk unchanged |
| Workspace.DeleteKeepsWellFormed | manus-backend/app/services/file_manager.py:191-221 | deleting keeps the disk well formed |
| Workspace.DeleteThenRead | manus-backend/app/services/file_manager.py:201-221 | after a successful delete, reading the path gives "not found" and nothing under it remains |
| Workspace.DeleteDot | manus-backend/app/services/file_manager.py:191-221 | deleting "." removes the whole workspace |
| Workspace.WriteEscapes | manus-backend/app/services/file_manager.py:32-63 | from session `s1`, a successful write of "../s12/x" stores the content outside the workspace |
| Workspace.WrittenAt | manus-backend/app/services/file_manager.py:51-71 | a successful write stores the content at the resolved path |
| Workspace.ListCollision | manus-backend/app/services/file_manager.py:135-151 | a directory beside the workspace that passes the guard is refused by `relative_to` |
| Workspace.VisibleSorted | manus-backend/app/services/file_manager.py:162-166 | skipping hidden names keeps a sorted list sorted and keeps exactly the non-hidden names |
| Workspace.SubtreesNames | manus-backend/app/services/file_manager.py:160-166 | the children built by the loop carry exactly the visible names, in order |
| Workspace.TreeChildren | manus-backend/app/services/file_manager.py:150-175 | a file is a leaf; a directory's children are exactly its non-hidden entries in ascending order, and `None` when there are none or listing is refused |
| Workspace.FileManager.constructor | manus-backend/app/services/file_manager.py:13-16 | creating the store creates the workspace directory |
| Workspace.FileManager.WriteFile | manus-backend/app/services/file_manager.py:40-78 | the reply and the new disk are those of `Write` on the old disk |
| Workspace.FileManager.WriteFileNoContent | manus-backend/app/services/file_manager.py:40-78 | a call without content creates the parent directories and then fails |
| Workspace.FileManager.ReadFile | manus-backend/app/services/file_manager.py:80-122 | the reply is `Read` of the disk; nothing changes |
| Workspace.FileManager.DeleteFile | manus-backend/app/services/file_manager.py:191-228 | the reply and the new disk are those of `Delete` |
| Workspace.FileManager.ListFiles | manus-backend/app/services/file_manager.py:124-189 | the reply is `List` of the disk; nothing changes |
| Workspace.FileManager.BuildTree | manus-backend/app/services/file_manager.py:150-175 | the recursive walk builds exactly `Tree` |
| Sandbox.IsCommandSafe | manus-backend/app/services/sandbox.py:28-59 | the two scans with early return accept exactly the commands in which no blocked command or pattern occurs after lower-casing and stripping |
| Sandbox.ScanPatterns | manus-backend/app/services/sandbox.py:40-57 | one scan returns false at the first pattern that occurs, and true exactly when none occurs |
| Sandbox.NoUpperInNormalized | manus-backend/app/services/sandbox.py:38 | no upper-case ASCII letter occurs in the lower-cased, stripped command |
| Sandbox.NormalizedContains | manus-backend/app/services/sandbox.py:38 | a lower-case pattern with no whitespace at its ends, found in the command, is still found after lower-casing and stripping |
| Sandbox.PatternBlocks | manus-backend/app/services/sandbox.py:38-57 | any command that contains a lower-case entry is refused, whatever its case and surrounding whitespace |
| Sandbox.RmRfRootBlocked | manus-backend/app/services/sandbox.py:10-42 | a command containing "rm -rf /" is refused |
| Sandbox.ChmodEntryIsDead | manus-backend/app/services/sandbox.py:16-42 | the lower-cased command never contains "chmod -R 777 /" |
| Sandbox.ChmodCommandAccepted | manus-backend/app/services/sandbox.py:16-59 | the command "chmod -R 777 /" itself passes the whole check |
| Sandbox.TruncateSpec | manus-backend/app/services/sandbox.py:152-156 | short output is unchanged; long output keeps its first `max` characters and gets the marker; the length is bounded |
| Sandbox.BlockedFirst | manus-backend/app/services/sandbox.py:82-90 | an unsafe command is refused with code 1 and duration 0, whatever the directory and the process, and the disk is untouched |
| Sandbox.OutsideRefused | manus-backend/app/services/sandbox.py:93-103 | a directory the guard rejects is refused with code 1, nothing runs, and the disk is untouched |
| Sandbox.DefaultTimeout | manus-backend/app/services/sandbox.py:109-110 | a missing timeout behaves as the configured maximum |
| Sandbox.ProcessOutcome | manus-backend/app/services/sandbox.py:105-183 | the process gets the command, the resolved directory, the effective timeout and the disk, and the disk it leaves is the new disk; a timeout gives code 124, no output and the timeout message; a completed process reports its code, success exactly for 0, and each stream truncated; a process that cannot be started fails with code 1, no output and "ERRO: " with the error |
| Sandbox.SuccessMeansZero | manus-backend/app/services/sandbox.py:80-185 | success only for a safe command that completed with code 0; every failure has a non-zero code |
| Sandbox.RunKeepsWellFormed | manus-backend/app/services/sandbox.py:105-106 | running a command keeps the disk well formed, for any process that itself keeps the disk well formed |
| Sandbox.SandboxExecutor.constructor | manus-backend/app/services/sandbox.py:23-26 | creating the executor creates the workspace directory |
| Sandbox.SandboxExecutor.RunCommand | manus-backend/app/services/sandbox.py:61-185 | the result and the new disk are those of `Run`, including the process's own changes to the disk |
| Gateway.FormatTreeLines | manus-backend/app/services/agent_orchestrator.py:123-135 | the drawing has exactly one line per node of the tree |
| Gateway.FormatChildrenLines | manus-backend/app/services/agent_orchestrator.py:129-133 | the children's drawing has one line per node under them |
| Gateway.FormatTreeShape | manus-backend/app/services/agent_orchestrator.py:123-135 | a node's line comes first; a node without children is one line; the first child is drawn one level deeper, as last exactly when it is the only one |
| Gateway.UnknownTool | manus-backend/app/services/agent_orchestrator.py:110-114 | an unknown tool name fails with "Tool desconhecida: <name>" and changes nothing |
| Gateway.KnownToolMirrors | manus-backend/app/services/agent_orchestrator.py:37-108 | each known tool reports the service's own success; only commands and writes change the disk |
| Gateway.CompletedCommand | manus-backend/app/services/agent_orchestrator.py:37-57 | a completed command succeeds exactly for code 0, and its text has a STDOUT or STDERR section exactly when that stream is not empty |
| Gateway.ActionKindFile | manus-backend/app/services/agent_orchestrator.py:228 | a tool "<stem>_file", such as `write_file` or `read_file`, has action type "file_<stem>" |
| Gateway.ActionKindList | manus-backend/app/services/agent_orchestrator.py:228 | `list_files` actions have type "file_lists" |
| Orchestrator.FirstToolUse | manus-backend/app/services/agent_orchestrator.py:214-222 | the index found is a tool use with none before it; no index means the message has no tool use |
| Orchestrator.EmitFacts | manus-backend/app/services/agent_orchestrator.py:180-276 | a chunk that does not end the stream yields no terminal event, adds its text to the accumulated text, and adds only answered exchanges to the history |
| Orchestrator.StreamTerminal | manus-backend/app/services/agent_orchestrator.py:176-290 | a round ends `process_message` exactly when it yields a terminal event; that event is its last and only one and carries all the text streamed before it |
| Orchestrator.StreamHistory | manus-backend/app/services/agent_orchestrator.py:176-290 | a round only appends to the history: answered exchanges, then the model's text when it finished |
| Orchestrator.LoopFacts | manus-backend/app/services/agent_orchestrator.py:161-301 | the loop yields exactly one terminal event, as its last; it runs at most the remaining rounds, and yields the error only after the tenth |
| Orchestrator.ContinueFacts | manus-backend/app/services/agent_orchestrator.py:167-301 | from any round that yielded at most one terminal event, as its last, and grew the history by a whole round, the rest of the loop keeps the same guarantees: one terminal event, last; the round budget; history only extended, by whole rounds |
| Orchestrator.ProcessFacts | manus-backend/app/services/agent_orchestrator.py:137-301 | one terminal event, last; at most ten model calls, and the error only after all ten; the history gains the user's message, answered exchanges, and the final text exactly when `message_complete` was yielded |
| Orchestrator.SecondToolUseUnanswered | manus-backend/app/services/agent_orchestrator.py:214-276 | for a message with two tool uses, the result recorded answers the first; the second id is never answered |
| Orchestrator.StreamErrorIgnored | manus-backend/app/services/agent_orchestrator.py:180-210 | an error chunk yields nothing and changes nothing |
| Orchestrator.RetryAfterFailedRound | manus-backend/app/services/agent_orchestrator.py:161-301 | a first call whose stream fails adds nothing, and a second call that replies with text ends the message after two rounds with that text |
| Orchestrator.ToolRunLifecycle | manus-backend/app/services/agent_orchestrator.py:224-273 | one tool run opens one running action and closes it with one action whose output is the content of the `tool_result` turn |
| Orchestrator.EmitLifecycle | manus-backend/app/services/agent_orchestrator.py:214-276 | the events of one chunk and the turns it adds agree: as many running actions as results, and the closing outputs equal the recorded results |
| Orchestrator.StreamLifecycle | manus-backend/app/services/agent_orchestrator.py:176-290 | over a round, the closing actions' outputs are, in order, the tool results the round records, and every running action is closed |
| Orchestrator.LoopLifecycle | manus-backend/app/services/agent_orchestrator.py:167-301 | the same over all remaining rounds of the loop |
| Orchestrator.ProcessLifecycle | manus-backend/app/services/agent_orchestrator.py:137-301 | over `process_message`, every running action is closed, and the closing outputs are, in order, the tool results recorded in the history |
| Orchestrator.AgentOrchestrator.constructor | manus-backend/app/services/agent_orchestrator.py:12-16 | both services are created on one workspace, and the history starts empty |
| Orchestrator.AgentOrchestrator.ExecuteTool | manus-backend/app/services/agent_orchestrator.py:18-121 | the result and the new disk are those of `Execute` |
| Orchestrator.AgentOrchestrator.AnswerToolUse | manus-backend/app/services/agent_orchestrator.py:218-276 | announcing, running, reporting and recording the first tool use yields the events and state that `Emit` and `NextState` describe |
| Orchestrator.AgentOrchestrator.HandleChunk | manus-backend/app/services/agent_orchestrator.py:180-290 | one chunk: it returns exactly on a complete message without a tool use, yielding `message_complete` with the accumulated text and recording it |
| Orchestrator.AgentOrchestrator.StreamRound | manus-backend/app/services/agent_orchestrator.py:173-290 | the `async for` over one stream yields and records what `Stream` describes |
| Orchestrator.AgentOrchestrator.ProcessMessage | manus-backend/app/services/agent_orchestrator.py:137-301 | the events, the new history and the new disk are those of `Process` |
| Store.MergeStepIdempotent | manus-frontend/src/store.ts:122-126 | spreading a patch over a step twice is spreading it once |
| Store.MergeActionIdempotent | manus-frontend/src/store.ts:132-136 | spreading a patch over an action twice is spreading it once |
| Store.MapWhere | manus-frontend/src/store.ts:123-125 | the map keeps length and order, transforms exactly the selected elements, and keeps the rest |
| Store.UpdateSteps | manus-frontend/src/store.ts:122-126 | updating keeps length and order, merges the patch into exactly the steps with that id, and keeps the rest |
| Store.UpdateActions | manus-frontend/src/store.ts:132-136 | the same for agent actions |
| Store.UpdateStepsIdempotent | manus-frontend/src/store.ts:122-126 | applying the same update twice equals applying it once, even when the patch changes the id |
| Store.UpdateStepsCommute | manus-frontend/src/store.ts:122-126 | updates of two different ids, by patches that keep ids, commute |
| Store.UpdateActionsIdempotent | manus-frontend/src/store.ts:132-136 | applying the same action update twice equals applying it once |
| Store.OpenThenClose | manus-frontend/src/store.ts:97-107 | opening sets the entry and makes it active; closing it again removes it and leaves no active file |
| Store.CloseFileSpec | manus-frontend/src/store.ts:102-107 | closing removes only that entry; the active file becomes null exactly when it was the closed one, and is unchanged otherwise |
| Store.UpdateFileContentSpec | manus-frontend/src/store.ts:97-113 | editing sets only the edited entry and keeps the active file; editing a just-opened file equals opening it with the new content |
| Store.TerminalOutputSpec | manus-frontend/src/store.ts:141-144 | appending twice is appending the concatenation; after clearing, the text is exactly what was appended |
| Store.SendMessageSpec | manus-frontend/src/store.ts:151-172 | a user message with the content is always appended; a frame with the content and current mode is sent, and streaming starts, exactly when the socket is open; nothing else changes |
| Store.AppStore.constructor | manus-frontend/src/store.ts:74-89 | the store starts empty, not streaming, in assistant mode |
| Store.AppStore.AddProject | manus-frontend/src/store.ts:93 | appends the project at the end; nothing else changes |
| Store.AppStore.OpenFileAction | manus-frontend/src/store.ts:97-101 | the new state is `OpenFile` of the old |
| Store.AppStore.CloseFileAction | manus-frontend/src/store.ts:102-107 | the new state is `CloseFile` of the old |
| Store.AppStore.UpdateFileContentAction | manus-frontend/src/store.ts:109-113 | the new state is `UpdateFileContent` of the old |
| Store.AppStore.AddMessage | manus-frontend/src/store.ts:116 | appends the message at the end; nothing else changes |
| Store.AppStore.UpdatePlanStep | manus-frontend/src/store.ts:122-126 | the steps become `UpdateSteps` of the old steps; nothing else changes |
| Store.AppStore.AddAgentAction | manus-frontend/src/store.ts:129-131 | appends the action at the end; nothing else changes |
| Store.AppStore.UpdateAgentAction | manus-frontend/src/store.ts:132-136 | the actions become `UpdateActions` of the old actions; nothing else changes |
| Store.AppStore.AppendTerminalOutputAction | manus-frontend/src/store.ts:141-143 | the terminal text gains the output at its end; nothing else changes |
| Store.AppStore.ClearTerminalOutput | manus-frontend/src/store.ts:144 | the terminal text becomes empty; nothing else changes |
| Store.AppStore.SendMessageAction | manus-frontend/src/store.ts:151-172 | the new state and the frame sent are those of `SendMessage` |
| Editor.LastSegment | manus-frontend/src/components/CodeEditor.tsx:38 | the result holds no '.', ends the name, and is the whole name or follows a '.' |
| Editor.LanguageAfterDot | manus-frontend/src/components/CodeEditor.tsx:37-61 | "<stem>.<ext>" gets the inherited member exactly for an inherited key, otherwise the table's language for the lower-cased `ext`, or "plaintext" |
| Editor.LanguageWithoutDot | manus-frontend/src/components/CodeEditor.tsx:37-61 | a name without a dot is looked up whole, lower-cased, with the same three outcomes |
| Editor.SharedLanguages | manus-frontend/src/components/CodeEditor.tsx:39-50 | javascript comes from exactly js/jsx, typescript from ts/tsx, yaml from yml/yaml |
| Editor.SegmentAfterDot | manus-frontend/src/components/CodeEditor.tsx:38 | the extension is what follows the last dot |
| Editor.SegmentWithoutDot | manus-frontend/src/components/CodeEditor.tsx:38 | a name without a dot is its own extension |
| Editor.TypeScriptAfterAnyStem | manus-frontend/src/components/CodeEditor.tsx:38-43 | any name ending in ".ts", such as "a.test.ts", is TypeScript |
| Editor.TrailingDotIsPlain | manus-frontend/src/components/CodeEditor.tsx:38-60 | a name ending in '.' gets "plaintext" |
| Editor.InheritedLookup | manus-frontend/src/components/CodeEditor.tsx:39-60 | an extension "constructor", in any case, yields the inherited member and not a language |
| Editor.LowerLastSegment | manus-frontend/src/components/CodeEditor.tsx:38 | lower-casing commutes with taking the last segment |
| Editor.CaseInsensitive | manus-frontend/src/components/CodeEditor.tsx:38-60 | names that differ only in letter case get the same language |

## Left out

- Symbolic links: `resolve()` is modelled lexically, so the guard never follows a link out of the workspace.
- The disk is a map from absolute paths to entries. Permission errors other than an unlistable directory, a full disk, and concurrent changes are not modelled.
- `shutil.rmtree` is modelled as always succeeding on what it is given.
- The spawned process is a function parameter from (command, directory, timeout, disk) to its outcome and the disk it leaves. The environment variables it receives are not modelled.
- Sandbox.RunKeepsWellFormed: holds for processes that keep the disk a well-formed tree (`KeepsTree`); a real process could only break that through the file system, which is a tree already.
- Sandbox.SandboxExecutor.RunCommand: its disk is kept well formed only for processes with `KeepsTree`, for the same reason.
- Orchestrator.AgentOrchestrator.ExecuteTool: requires a machine whose process keeps the disk well formed (`KeepsTree`), for the same reason.
- Orchestrator.AgentOrchestrator.AnswerToolUse: requires a machine whose process keeps the disk well formed (`KeepsTree`), for the same reason.
- Orchestrator.AgentOrchestrator.HandleChunk: requires a machine whose process keeps the disk well formed (`KeepsTree`), for the same reason.
- Orchestrator.AgentOrchestrator.StreamRound: requires a machine whose process keeps the disk well formed (`KeepsTree`), for the same reason.
- Orchestrator.AgentOrchestrator.ProcessMessage: requires a machine whose process keeps the disk well formed (`KeepsTree`), for the same reason.
- The measured duration is an opaque text given per machine (`Gateway.Machine.elapsed`). Its `:.2f` rounding is not modelled.
- `errors='replace'` decoding of process output is not modelled; output is already text.
- Text.Lower: lower-cases ASCII letters only, while Python's `lower()` and JavaScript's `toLowerCase()` map all Unicode letters.
- Tool arguments are text or missing. Non-string JSON values in a tool input are not modelled.
- The raw `result` dictionary that `execute_tool` also returns is not kept, because nothing in the loop reads it.
- The outer `except` of `execute_tool` ("Erro: ...") is not modelled. No modelled service raises past its own handler.
- The JSON rendering of an action's description (`json.dumps(tool_input)`) is kept as the tool name and input, not as text.
- `repr` quoting of paths in `OSError` messages and the exact text of the `relative_to` error are simplified.
- A file's bytes are either text or rejected by the UTF-8 decoder; the decoder's message (which byte, at which position) is carried by the file, not computed from its bytes.
- Logging (`log.bind(...)`) is left out everywhere: it has no effect on results.
- The model client is a function from (call number within the message, history, tools offered) to a chunk sequence, so two calls with the same history may differ. The network, retries inside the client and the Anthropic API are not modelled.
- `process_message` is an async generator; the model collects all its events. A consumer that stops reading early is not modelled.
- `assistant_message_content` is written but never read, so it is not modelled.
- `tool_input_delta` chunks update `current_tool_input`, which is never read; they yield nothing in the model.
- The session id is taken to be a plain path component.
- Workspace.Write: text is a sequence of code points and always encodes; a lone surrogate, for which `content.encode('utf-8')` raises and the write fails with the exception text, is not modelled.
- Paths.Resolve: a NUL character in a path, for which `resolve()` raises `ValueError` (the file store then answers with the exception text, and `run_command` answers "ERRO: embedded null byte" with a measured duration), is not modelled; such a path is resolved like any other.
- Workspace.FileManager.constructor: requires that the workspace directory can be created; when it cannot, `__init__` raises and no store exists, which the model does not represent.
- Sandbox.SandboxExecutor.constructor: requires that the workspace directory can be created, for the same reason.
- Orchestrator.AgentOrchestrator.constructor: requires that the workspace directory can be created, because both services are built on it.
- Frontend: `logs`/`addLog` (it reads the wall clock), the plain setters (`setCurrentProject`, `setFileTree`, `setActiveFile`, `setIsStreaming`, `setAgentMode`, `setPlanSteps`, `setCentralTab`, `setBottomTab`, `setWebSocket`), and the `currentProject`, `fileTree`, `centralTab`, `bottomTab` and `ws` fields are not modelled. Each setter only replaces one field.
- The frontend socket is a boolean "open" input, and the frame sent is returned rather than written to a socket.
- `sendMessage` reads the clock twice; both readings are inputs (`idClock`, `clock`).
- The insertion order of the open-files `Map` is not modelled; open files are a map from path to content.
- A `Partial` update that sets a required field to `undefined` is not modelled; a required field is either absent from the patch or given.
- The React components other than `getLanguage`, the WebSocket server, the HTTP routes and configuration loading are not part of this model.
