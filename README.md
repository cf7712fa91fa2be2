# Pro-Chat, modelled in Dafny

Pro-Chat is a terminal chat client for large language models. It has Vim-style modes (Normal, Insert, Command, Search), it streams answers from the Anthropic and OpenAI APIs, it runs tools the model asks for after a per-tool permission check, and it saves conversations as JSON files. This project models the part of the program that decides what happens and proves what those decisions promise:

- **The application state machine** (`src/app.rs`). `ChatModel.AppState` holds every field of `App` that its operations read or change. Each `App` method is a function from state to state: sending, retrying, editing the last message, cancelling, the stream events, the slash and colon commands, search, history recall, tab completion, code-block extraction, and the tool-call walk with its permission prompt.
  - The methods whose source works by looping are imperative methods in `Chat` (`app.dfy`), proved equal to those functions: processing the pending calls, building the tool results, pasting, searching, extracting code blocks, tab completion.
  - `EventLoop.Step` is one round of `App::run`.
  - `Invariant` proves that every round keeps `ChatModel.Valid`. `Valid` says the cursor lies within the line, every saved undo cursor within its line, the input-history position and the confirmation index within their lists, the tick counter below 2^64, and the search position on a match.
- **The input line** (`Input`): the line editor with its 100-entry undo stack, word and line movement, model aliases, completion, the tool-argument summary, and the code-block scan.
- **Key dispatch** (`src/keybinds.rs`, module `Keybinds`). Each handler maps a key and a state to the new state and the action left for the loop. `KeyProperties` states each handler arm by arm, including that the keys a handler does not use change nothing.
- **The tools** (`src/tools.rs`, module `Tools`):
  - the six tools and the permission table;
  - decoding tool calls from a JSON response;
  - each tool's outcome. The file system, the glob matcher and the child processes are parameters: each outcome function takes what they returned, such as whether the file exists, the read result, the glob entries or the process output.
  - `Tools.ToolExecutor` is a class, because its permission table and timeout are updated in place. It stands alone: `ChatModel.AppState` keeps its own copy of the table in `permissions`, read through the same `Tools.Lookup` and updated by `ChatModel.Remember` when the prompt answers 'a' or 'd', and each run of a tool is what `Env` gives for it.
- **Streaming** (`src/api.rs`, module `Provider`): how the server-sent-event body is cut into lines and turned into events for both providers. The body is a sequence of chunks, and a chunk can also be a transport failure.
- **Conversation records** (`src/history.rs`, module `History`): the record, adding a message with its automatic title, and the newest-first listing. `History.Conversation` is a class, because `add_message` updates the record in place.
- **Markdown rendering** (`src/markdown.rs`, module `Markdown`): fenced code blocks, headers, list items, and the inline code, bold and italic spans.

The program's inputs from outside become fields of `ChatModel.Env`:

- the API keys from the environment (`api_key_from_env`, `src/config.rs:195-203`);
- the clock;
- the fresh conversation id;
- the JSON parser;
- the tool executor;
- Unicode lowercasing;
- the saved conversations;
- the clipboard;
- Neovim.

The state records the outgoing API calls in `spawned` and the tools handed to the executor in `executed`. A panic of the Rust code (indexing a pending call past the end in the confirmation handler) is recorded as `panicked`.

Some facts about the program that the proofs make explicit:

- The tool results are looked up by tool name, taking the latest invocation (`ChatProperties.ResultForLatest`). When one response calls the same tool twice, both results report the later invocation's output.
- Retrying drops the last displayed message. It drops the last assistant entry of the wire history and of the saved record independently, wherever that entry is (`ChatProperties.RetryDropsAndResends`).
- `/undo` empties the input line before it undoes. What comes back is the last line saved before the command, and redo then restores the empty line (`ChatProperties.SlashUndoAfterClear`).
- `/provider` stores its argument untrimmed, while `:set provider=` trims it (`ChatProperties.SlashProviderStores`, `ChatProperties.SetStoresProvider`).
- A numbered list item needs exactly one digit before ". " (`Markdown.TwoDigitsNotNumbered`).

The string matches of the source are written as classifiers: `ChatModel.SlashNameOf`, `ChatModel.ColonNameOf` and `ChatModel.SettingNameOf`. Each one tests the same words in the same order as the `match` it replaces. The list of themes shown by `/theme` is a literal, and `ChatProperties.ThemeListJoined` ties it to `ChatModel.ThemeNames`.

Where the source disagrees with itself, the model follows how `src/app.rs` uses the other files:

- `app.rs` sends `MessageContent::Blocks` messages and calls `call_anthropic_with_tools`.
- `app.rs` handles an `AppEvent::ToolUseRequest` that `src/event.rs` does not declare.

The model gives these their `app.rs` meaning.

## Model

| member | source | states |
|---|---|---|
| Text.Trim | src/app.rs:604 | `str::trim`: the result is the slice of the input that starts at `TrimStartLen`; it is empty or starts and ends with a non-whitespace char, and every char cut off at either end is whitespace. |
| Text.TrimEmpty | src/keybinds.rs:246-252 | Trimming gives the empty text exactly when every char is whitespace, the blank-line test of Insert-mode Enter. |
| Text.TrimStart | src/app.rs:604 | `str::trim_start`: what it drops is whitespace and what it keeps starts with a non-whitespace char. |
| Text.TrimEnd | src/app.rs:604 | `str::trim_end`: a prefix of the input that ends with a non-whitespace char; everything dropped is whitespace. |
| Text.TrimStartChar | src/markdown.rs:35 | `trim_start_matches('`')`: a suffix of the input; every char dropped is the given char, and the first one kept is not. |
| Text.FindChar | src/app.rs:863 | `str::find(c)`: the first position holding `c`, and `None` exactly when `c` does not occur. |
| Text.Find | src/tools.rs:383 | `str::find(pat)`: a position where the pattern occurs. |
| Text.FindFirst | src/tools.rs:383 | No occurrence of the pattern comes before the position `Find` gives, and none exists at all when it gives `None`. |
| Text.Lines | src/tools.rs:188-192 | `str::lines`: exactly the empty text has no lines, and a non-empty text without '\n' is one line. |
| Text.Utf8Len | src/tools.rs:225 | `str::len` counts UTF-8 bytes: between one and four per char. |
| Text.NatToString | src/tools.rs:191 | The decimal rendering is non-empty, all digits, with no leading zero, one digit exactly below ten, and its digits read back (`DecimalValue`) as the number. |
| Text.PadLeft | src/tools.rs:191 | `{:>w}` gives a field of at least `w` chars that ends with the text and is padded with spaces in front. |
| Text.TakeChars | src/history.rs:100 | `chars().take(n)`: a prefix of the text, `n` chars long or the whole text when shorter. |
| Json.Get | src/tools.rs:429 | `Value::get`: a member exactly for an object holding that key, and the member is the value stored under it. |
| Json.AsStr | src/tools.rs:439 | `as_str` succeeds exactly on a string value and yields that string. |
| Json.AsArray | src/tools.rs:429 | `as_array` succeeds exactly on an array value and yields its items. |
| Json.StrField | src/tools.rs:435-446 | `get(key).and_then(as_str)` succeeds exactly for an object whose member under that key is a string, and yields that string. |
| Tools.CountMatches | src/tools.rs:375 | `matches(old_text).count()`. `CountZeroIffAbsent`, `CountAtLeastOne` and `CountAtLeastTwo` relate the count to where the text occurs. |
| Tools.ReplaceFirst | src/tools.rs:389 | `replacen(old_text, new_text, 1)`. `CountOneReplacesThatOccurrence` states which occurrence it replaces and with what. |
| Tools.NameIdentifiesVariant | src/tools.rs:50-59 | Every tool's name is one of the six known names, and two tools have the same name exactly when they are the same variant. |
| Tools.OkResult | src/tools.rs:74-79 | `ToolResult::ok` is a success carrying the output. |
| Tools.ErrResult | src/tools.rs:81-86 | `ToolResult::err` is a failure carrying the output. |
| Tools.Lookup | src/tools.rs:147-152 | A name that was never set gets `AskFirst`; a name that was set gets its entry. |
| Tools.LookupAfterSet | src/tools.rs:143-152 | After setting a name, that name gets the new permission and every other name keeps its old one. |
| Tools.ToolExecutor.constructor | src/tools.rs:134-139 | A new executor has no permission overrides and the 120-second command timeout. |
| Tools.ToolExecutor.SetPermission | src/tools.rs:143-145 | The table gains the entry; the name now gets the new permission, every other name what it had, and the timeout is unchanged. |
| Tools.ToolExecutor.SetCommandTimeout | src/tools.rs:154-156 | The timeout becomes the given one and the table is unchanged. |
| Tools.InputStr | src/tools.rs:456-461 | A string member is taken as it is; a missing or non-string member gives the default. |
| Tools.DecodeTool | src/tools.rs:455-537 | A name decodes to a tool exactly when it is one of the six known names, and the tool decoded carries that name. |
| Tools.AbsentFieldsDefault | src/tools.rs:454-532 | Missing input members default to "", except "." for the `list_files` path; the optional pattern and path are `None`. |
| Tools.DecodeBlock | src/tools.rs:435-537 | A block yields a call exactly when its type is "tool_use" and it has a string id and a known string name; the call keeps that id and name. |
| Tools.DecodeBlocks | src/tools.rs:434-538 | No more calls than blocks. |
| Tools.DecodeBlocksAppend | src/tools.rs:434-538 | One more block adds its call, if it has one, at the end: calls keep block order. |
| Tools.ParseToolCalls | src/tools.rs:426-540 | A missing or non-array `content` gives no calls; otherwise the loop's result is the calls of the blocks, in block order. |
| Tools.DecodeToolUse | src/tools.rs:435-537 | The loop body for one block decodes it as `DecodeBlock` does: each missing piece skips the block. |
| Tools.DecodeBlocksSound | src/tools.rs:434-538 | Every call returned comes from some block of the list. |
| Tools.DecodeBlocksComplete | src/tools.rs:434-538 | When every block is a well-formed tool-use block there is one call per block, the j-th call from the j-th block. |
| Tools.NumberedLine | src/tools.rs:191 | A numbered line is at least seven chars longer than the line, with a tab right before the line. |
| Tools.NumberedLines | src/tools.rs:188-192 | One numbered line per line, the i-th numbered i + 1. |
| Tools.ReadFileOutcome | src/tools.rs:181-198 | A missing file is "File not found"; a readable one gives its numbered lines joined by '\n'; a read error is reported with the path. |
| Tools.LinesOfJoin | src/tools.rs:188-192 | Lines without '\n' or '\r', joined by '\n', split back into the same lines. |
| Tools.NumberColumn | src/tools.rs:191 | The number column holds only spaces and digits. |
| Tools.NumberedLinePlain | src/tools.rs:191 | A numbered line of a line without line breaks holds no line break either. |
| Tools.ReadFileOneLinePerLine | src/tools.rs:188-193 | For a file without carriage returns, the output has exactly one line per line of the file: number i + 1 right-aligned in six columns, a tab, then the line. |
| Tools.WriteFileOutcome | src/tools.rs:200-230 | Success exactly when creating the directories, creating the file and writing all succeed; the success message gives the UTF-8 byte count and the path. A failed `create_dir_all` reports "Failed to create directory " and the parent directory with the error, and a failed create or write reports its own message with the path. |
| Tools.ListFilesOutcome | src/tools.rs:232-260 | A missing directory is an error; otherwise the pattern `GlobPattern` builds is handed to the glob oracle, an empty match is "No files matched the pattern.", matches are listed one per line, and a bad pattern is an error. |
| Tools.GlobPattern | src/tools.rs:238-241 | The pattern is the directory, a '/', then the given pattern, or `**/*` when none is given. |
| Tools.SearchCommand | src/tools.rs:262-292 | The search program gets the pattern and then the directory, "." when none is given, as its last two arguments. |
| Tools.SearchOutcome | src/tools.rs:294-308 | Success exactly when the status is success or stdout is non-empty, or on exit code 1 with empty stderr; stdout is the output when non-empty, "No matches found." otherwise; any other outcome is an error carrying stderr. |
| Tools.CombineOutput | src/tools.rs:337-348 | The loop builds exactly `Combined(stdout, stderr)`. |
| Tools.Combined | src/tools.rs:337-348 | The combined output is never empty, starts with stdout, ends with stderr when there is any, and is "(no output)" when both are empty. |
| Tools.ExecuteCommandOutcome | src/tools.rs:314-360 | A spawn or wait failure or a timeout is an error with its message. Otherwise a zero exit status gives the combined output as a success, and any other status gives "Exit code N\n" and the combined output as a failure, N being -1 when the process has no code. |
| Tools.CountZeroIffAbsent | src/tools.rs:375-381 | The non-overlapping count is zero exactly when the text does not occur. |
| Tools.CountOneReplacesThatOccurrence | src/tools.rs:383-396 | With exactly one occurrence, the replacement puts the new text at that occurrence and keeps everything around it. |
| Tools.EditFileOutcome | src/tools.rs:362-397 | A missing or unreadable file writes nothing; zero occurrences, or more than one, fail and write nothing; exactly one writes the text with that occurrence replaced. |
| Tools.EditAmbiguousWritesNothing | src/tools.rs:383-390 | Two non-overlapping occurrences are refused and nothing is written. |
| Input.WordStart | src/app.rs:1337-1349 | The start of the word ending the text before the cursor: trailing whitespace set aside, the position after the last whitespace before the word. |
| Input.LineStart | src/app.rs:1383-1386 | The start of the current line: after the last '\n' before the cursor, with no '\n' in between. |
| Input.LineEndOffset | src/app.rs:1388-1391 | The end of the current line: the first '\n' after the cursor, or the end of the text. |
| Input.WordEnd | src/app.rs:1393-1399 | The end of the word at the cursor: its first whitespace, or the end of the text. |
| Input.WordForwardOffset | src/app.rs:1393-1399 | `w` moves over the rest of the word and the whitespace after it, to a non-whitespace char or the end. |
| Input.SaveUndo | src/app.rs:1272-1278 | Pushes the current line and cursor, keeps at most 100 entries, and empties the redo stack. |
| Input.Undo | src/app.rs:1281-1290 | Fails exactly when there is nothing to undo, and keeps the total size of the two stacks. |
| Input.Redo | src/app.rs:1293-1302 | Fails exactly when there is nothing to redo, and keeps the total size of the two stacks. |
| Input.UndoRedoRoundTrip | src/app.rs:1281-1302 | Undo then redo gives back the line, the cursor and both stacks; so does redo then undo. |
| Input.EditValidPreserved | src/app.rs:1272-1302 | Saving, undoing and redoing keep the cursor within the line and every saved cursor within its line. |
| Input.InsertChar | src/app.rs:1305-1315 | Saves the line, then inserts the char at the cursor and moves past it; the text around it is kept and the redo stack is emptied. |
| Input.Paste | src/app.rs:1488-1500 | Saves the line once, then inserts the whole text at the cursor, which ends after it. |
| Input.DeleteCharBefore | src/app.rs:1317-1328 | At the start nothing changes; otherwise the line is saved and the char before the cursor is removed. |
| Input.DeleteCharAt | src/app.rs:1330-1335 | At the end nothing changes; otherwise the line is saved and the char under the cursor is removed. |
| Input.DeleteWordBefore | src/app.rs:1337-1349 | At the start nothing changes; otherwise the line is saved and the text from the start of the previous word up to the cursor is removed. |
| Input.DeleteToStart | src/app.rs:1351-1355 | Saves the line and keeps only what follows the cursor, with the cursor at 0. |
| Input.ClearInput | src/app.rs:1357-1361 | Saves the line and empties it. |
| Input.CursorLeft | src/app.rs:1363-1371 | One char left, stopping at 0; nothing else changes. |
| Input.CursorRight | src/app.rs:1373-1381 | One char right, stopping at the end; nothing else changes. |
| Input.CursorHome | src/app.rs:1383-1386 | To the start of the current line; the text and the stacks are kept. |
| Input.CursorEnd | src/app.rs:1388-1391 | To the end of the current line; the text and the stacks are kept. |
| Input.WordForward | src/app.rs:1393-1399 | Forward to a non-whitespace char or the end; the text and the stacks are kept. |
| Input.WordBack | src/app.rs:1401-1410 | Back to the start of the word before the cursor; the text and the stacks are kept. |
| Input.InsertThenDelete | src/app.rs:1305-1328 | Deleting the char just typed gives back the line and the cursor. |
| Input.UndoRestoresEdit | src/app.rs:1272-1290 | Every edit that saves the line can be undone to the line and cursor from before it. |
| Input.EditsKeepValid | src/app.rs:1305-1410 | Every editing and cursor operation keeps the cursor within the line and the saved cursors within their lines. |
| Input.Matching | src/app.rs:1634-1642 | The completions are exactly the command names that start with what was typed. |
| Input.MatchingCommands | src/app.rs:1634-1652 | Completion never offers a command that does not start with the typed text, and a full command name is always among its own completions. |
| Input.CommonPrefix | src/app.rs:2000-2016 | `None` for no strings; otherwise a prefix of every string, and the longest such prefix. |
| Input.AliasTarget | src/app.rs:1858-1867 | Each of the nine aliases stands for its own full identifier ("sonnet" and "s" for Sonnet, and so on), and no other text is an alias. |
| Input.ResolveModelAlias | src/app.rs:1858-1867 | After trimming, an alias becomes the identifier `AliasTarget` gives it, and anything else is kept as it is. |
| Input.TargetFixed | src/app.rs:1858-1867 | The full identifiers are their own trim and are not aliases. |
| Input.ResolveIdempotent | src/app.rs:1858-1867 | Resolving twice is the same as resolving once. |
| Input.FormatToolArgs | src/app.rs:1980-1997 | The whole summary of each tool: "path: " and the path for the path tools, with the UTF-8 byte count for `write_file` and the length of the replaced text for `edit_file`; the pattern and optional path for a search; "$ " and the command; and the optional pattern for `list_files`. |
| Input.FindFence | src/app.rs:1519 | The position a fence search gives holds a fence at or after the start. |
| Input.FindFenceFirst | src/app.rs:1519 | No fence lies between the start and the fence found, and there is none when the search fails. |
| Input.FindNewline | src/app.rs:1522 | The position a newline search gives holds '\n' at or after the start. |
| Input.FindNewlineFirst | src/app.rs:1522 | No '\n' lies between the start and the one found, and there is none when the search fails. |
| Input.FencesFrom | src/app.rs:1518-1540 | The language, the code and the closing fence of a found block come in that order, after the opening fence. |
| Input.FindFences | src/app.rs:1518-1527 | One round of the scan finds the same fences as `FencesFrom`. |
| Input.ScanBlocks | src/app.rs:1516-1542 | The loop over one message collects exactly the blocks `Blocks` gives. |
| Input.ScanFromStop | src/app.rs:1526 | The scan ends with what it collected once no further block is found. |
| Input.ScanFromNext | src/app.rs:1528-1540 | A found block is collected, and the scan resumes after its closing fence. |
| Input.NoFenceNoBlocks | src/app.rs:1516-1542 | A text without three backticks in a row has no code blocks. |
| Input.FencesAt | src/app.rs:1518-1527 | The fences are found where they are when nothing that could be taken for one comes earlier. |
| Input.Layout | src/app.rs:1518-1540 | Where the fences, the language and the code of a block written out in full lie. |
| Input.BlockAt | src/app.rs:1518-1540 | A block whose fences come first is found at them, and its language and code are the slices between them. |
| Input.LayoutText | src/app.rs:1528-1540 | The language and the code of a block written out in full are the slices between its fences. |
| Input.SingleBlock | src/app.rs:1516-1542 | A text with one closed block and no later fence yields exactly that block. |
| Input.OneBlockFound | src/app.rs:1516-1542 | A block written out in full, with no backtick before its closing fence, is found where it is. |
| Input.OneBlockText | src/app.rs:1528-1540 | The block found has its language trimmed and its code without the trailing newlines. |
| Input.NextMatch | src/app.rs:1453-1463 | The next match index stays below the number of matches. |
| Input.PrevMatch | src/app.rs:1465-1479 | The previous match index stays below the number of matches. |
| Input.MatchWrapAround | src/app.rs:1453-1479 | Forward and back are inverses; forward from the last match gives the first, and back from the first gives the last. |
| Input.MatchPositions | src/app.rs:1430-1451 | Exactly the indices of the messages whose lowered text contains the lowered query, in increasing order. |
| History.FirstUser | src/history.rs:99 | The first message with role "user", or `None` when no message has that role. |
| History.AutoTitleShape | src/history.rs:100-105 | Content of at most 60 chars is the title as it is; longer content becomes its first 60 chars and "...". |
| History.NewRecord | src/history.rs:25-33 | A new conversation has the given id, the title "New conversation", no messages, and both times set to now. |
| History.Added | src/history.rs:89-108 | The message is appended at the end with the others unchanged, and the update time is now. A title other than the default never changes; with no user message the default title is kept; otherwise the title is taken from the first user message. |
| History.Conversation.constructor | src/history.rs:25-33 | The new object holds the record `Conversation::new` makes. |
| History.Conversation.Restore | src/history.rs:47-52 | The object holds exactly the record that was read back. |
| History.Conversation.AddMessage | src/history.rs:89-108 | The object's record becomes the record after adding the message. |
| History.FirstUserStable | src/history.rs:97-107 | Once a user message exists, later messages do not change which message is the first user message. |
| History.Insert | src/history.rs:71 | Inserting keeps the list newest first and adds nothing but the new entry. |
| History.InsertPermutes | src/history.rs:71 | Inserting adds the entry and loses nothing. |
| History.SortNewestFirst | src/history.rs:71 | The sorted list is newest first and a permutation of its input. |
| History.ListAll | src/history.rs:54-73 | An absent directory lists nothing; a listing error is returned; otherwise the decoded ".json" entries come back newest first. |
| History.Latest | src/history.rs:76-79 | The first entry of `list_all`, which is a newest one, or `None` when there is none; errors are passed on. |
| Provider.StreamEvents | src/api.rs:26-175 | The events one provider call sends. `ExactlyOneDone`, `DoneEndsStream`, `ChunkBoundariesIrrelevant`, `AnthropicEvents` and `OpenAiEvents` state them; `StreamResponse` is the loop that produces them. |
| Provider.Run | src/api.rs:71-96 | The per-line decisions over the lines so far. `RunSnoc`, `StopIsFinal` and `StoppedPrefix` state how a line extends it and that a stop is final. |
| Provider.OpenAiMessages | src/api.rs:114-120 | The system prompt, when present, is the first message; after it comes every history message with its role and content, in order. |
| Provider.LineEffect | src/api.rs:76-95 | A line that is not "data: " is ignored, "[DONE]" emits `ApiDone` and stops, and a payload that does not parse is dropped. At most one event per line. |
| Provider.TrimAll | src/api.rs:73 | Every line is trimmed, and the number of lines is kept. |
| Provider.FirstBroken | src/api.rs:67-68 | Every chunk before the first broken one is data, and the chunk at that position is broken. |
| Provider.StreamResponse | src/api.rs:57-101 | The loop over the chunks emits exactly the events `StreamEvents` gives for the response. |
| Provider.DrainLines | src/api.rs:72-97 | The inner loop cuts off the complete lines, trimmed and interpreted in order. A buffer that is not stopped keeps no '\n', and no text is lost. |
| Provider.ProcessLine | src/api.rs:76-95 | One line adds exactly the events of its `LineEffect`, and stops exactly when that does. |
| Provider.CutLine | src/api.rs:72-74 | Cutting the first line off the buffer moves it, with its terminator, to the lines already taken. |
| Provider.CompleteLinesOfTerminated | src/api.rs:72-74 | The complete lines of terminated lines followed by more text are those lines followed by the complete lines of the rest. |
| Provider.CompleteLinesAfter | src/api.rs:72-74 | A rest without '\n' adds no complete line. |
| Provider.FinishBroken | src/api.rs:68 | A transport failure after the lines so far appends one `ApiError` with its message. |
| Provider.FinishNormally | src/api.rs:100 | The end of the body after lines that did not stop appends one final `ApiDone`. |
| Provider.StopIsFinal | src/api.rs:78-94 | Once the lines stop the stream, the events are those of the lines read so far. |
| Provider.RunStopped | src/api.rs:78-94 | Once the lines so far stop the stream, no later line changes the outcome. |
| Provider.RunStoppedStep | src/api.rs:78-94 | One more line after the stream stopped changes nothing. |
| Provider.StoppedPrefix | src/api.rs:67-98 | Once the lines of the first chunks stop the stream, the later text of the unbroken chunks changes nothing. |
| Provider.SuccessStopped | src/api.rs:67-98 | A 2xx response whose decoded lines stop the stream sends just their events. |
| Provider.FailureStatusSingleError | src/api.rs:57-62 | A non-2xx status gives exactly one `ApiError("API error {status} {reason}: {body}")` and nothing else. |
| Provider.RunShape | src/api.rs:72-97 | While the stream runs, lines give only text chunks; once stopped, a single `ApiDone` comes at the very end. |
| Provider.NoBreakEvents | src/api.rs:67-101 | Without a transport failure the events are those of the decoded lines, then `ApiDone` unless the stream stopped itself. |
| Provider.AllDataUnbroken | src/api.rs:67-68 | With only data chunks there is no broken position. |
| Provider.DoneLast | src/api.rs:100 | An outcome of the `RunShape` form ends in exactly one `ApiDone` once the final one is added. |
| Provider.ExactlyOneDone | src/api.rs:57-101 | Without a connect or transport failure, a 2xx response gives text chunks followed by exactly one `ApiDone`, as the last event. |
| Provider.DoneEndsStream | src/api.rs:78-81 | A `[DONE]` payload emits `ApiDone`, and nothing follows it whatever the later lines. |
| Provider.AnthropicEvents | src/api.rs:83-95 | A `content_block_delta` with a string `delta.text` emits that text; `message_stop` emits `ApiDone` and stops. |
| Provider.OpenAiEvents | src/api.rs:163-166 | A string `choices[0].delta.content` emits exactly that string, and an OpenAI event never stops the stream. |
| Provider.ChunkBoundariesIrrelevant | src/api.rs:67-77 | How the text is cut into chunks does not matter: a line split across two chunks is decoded whole. |
| Markdown.RenderMarkdown | src/markdown.rs:6-63 | `parse_markdown`. `ParseMarkdown` is its loop, and `ClosedBlock`, `UnclosedBlock` and `OpenThenBody` state the fenced blocks. |
| Markdown.ParseInline | src/markdown.rs:65-119 | `parse_inline`. `ParseInlineCases`, `PrefixesExclusive` and `TwoDigitsNotNumbered` state each kind of line. |
| Markdown.InlineSpans | src/markdown.rs:121-186 | `parse_inline_spans`. `InlineSpansProperties`, `TokensRoundTrip` and `StylePriority` state that no text is lost and which style wins. |
| Markdown.Pair | src/markdown.rs:127-128 | A pair found has both delimiters inside the text, the second after the first. |
| Markdown.Delimited | src/markdown.rs:129-140 | A round consumes the text before the stretch, the stretch and both delimiters; it gives a raw span for a non-empty prefix and the styled span last. |
| Markdown.DelimitedSpans | src/markdown.rs:129-139 | The spans of a round are the raw text before the stretch, if any, then the stretch. |
| Markdown.DelimitedRender | src/markdown.rs:129-140 | The spans of a round, with their delimiters put back, give exactly the text it consumed. |
| Markdown.Step | src/markdown.rs:125-178 | Each round consumes at least one char and gives at least one span, which is what makes the loop end. |
| Markdown.PairFacts | src/markdown.rs:127-132 | A pair found has a delimiter where it says, twice. |
| Markdown.PairRender | src/markdown.rs:129-140 | A round for a pair found stands for exactly the text it consumes. |
| Markdown.StepRender | src/markdown.rs:125-178 | The spans of each round stand for exactly the text it consumes. |
| Markdown.CutPair | src/markdown.rs:127-173 | Finding a pair succeeds exactly when `Pair` does, and gives the same spans and length as `Delimited`. |
| Markdown.InlineRound | src/markdown.rs:125-178 | The loop body does what `Step` says: code, else bold, else italic, else the rest as raw text. |
| Markdown.ParseInlineSpans | src/markdown.rs:121-186 | The loop's result is `InlineSpans` of the text. |
| Markdown.TokensRoundTrip | src/markdown.rs:125-178 | Delimiters are dropped and nothing else: putting them back around each span's text gives the original text. |
| Markdown.RenderCut | src/markdown.rs:125-178 | Spans for the text up to a point, followed by spans for the rest, stand for the whole text. |
| Markdown.InlineSpansProperties | src/markdown.rs:176-185 | Never an empty list, no text lost, and text with no '`' and no '*' is one raw span equal to it. |
| Markdown.StylePriority | src/markdown.rs:125-174 | A backtick pair makes the first styled span inline code whatever '*' the text holds; failing that a "**" pair makes it bold; failing both, a '*' pair makes it italic. |
| Markdown.PrefixesExclusive | src/markdown.rs:69-95 | The header and list prefixes exclude each other, so the order of the tests decides nothing. |
| Markdown.ParseInlineCases | src/markdown.rs:65-119 | "### ", "## " and "# " lines become headers with the prefix stripped, "- " and "* " lines bullets, and a line of no kind is inline spans only. |
| Markdown.TwoDigitsNotNumbered | src/markdown.rs:105-115 | Only one leading digit before ". " makes a numbered item; "12. x" is ordinary text. |
| Markdown.BodyLines | src/markdown.rs:20-25 | One "  │ " line per buffered line. |
| Markdown.EmitBlock | src/markdown.rs:16-25 | A block's lines are its header, then one prefixed line per buffered line. |
| Markdown.ParseMarkdown | src/markdown.rs:6-63 | The loop gives exactly the lines `RenderMarkdown` gives for the text. |
| Markdown.FeedAllNext | src/markdown.rs:12-46 | Feeding one more line is one more step of the fold. |
| Markdown.FeedAllAppend | src/markdown.rs:12-46 | Feeding two runs of lines is feeding the first, then the second. |
| Markdown.InlineAll | src/markdown.rs:45 | The inline parse of each line, one per line. |
| Markdown.NoFenceLinePerLine | src/markdown.rs:40-45 | Outside a block, lines without fences give one output line each, their inline parse, and no block is opened. |
| Markdown.NoFenceText | src/markdown.rs:12-45 | Markdown without fence lines renders exactly one line per input line, each its inline parse. |
| Markdown.BodyBuffered | src/markdown.rs:40-43 | Lines inside an open block are buffered verbatim, not parsed. |
| Markdown.FeedOne | src/markdown.rs:12-46 | Feeding a single line is one step. |
| Markdown.OpenThenBody | src/markdown.rs:33-43 | An opening fence and lines without fences leave a block open, with the language after the backticks and those lines buffered. |
| Markdown.ClosedBlock | src/markdown.rs:13-37 | A closed block gives the header with the opener's language after its backticks, each body line prefixed and unparsed, then the footer; the fence lines are never shown. |
| Markdown.UnclosedBlock | src/markdown.rs:49-60 | An unclosed block at the end of input shows its header and its body but no footer. |
| ChatModel.Initial | src/app.rs:110-178 | `App::new`, as a function of the configuration and what `Env` gives for the saved record. `InitialSession` states the start-up state and `Invariant.InitialValid` that it satisfies the invariant. |
| ChatModel.SendMessage | src/app.rs:603-702 | `send_message`. `SendSubmits`, `SendBlankIgnored` and `SendWithoutKey` state what it does to the three message lists and when it refuses. |
| ChatModel.RetryLast | src/app.rs:704-801 | `retry_last`. `RetryRefused` and `RetryDropsAndResends` state when it refuses and which entries it drops before re-sending. |
| ChatModel.EditLastMessage | src/app.rs:803-860 | `edit_last_message`. `EditRefused` and `EditTakesLastTurn` state when it refuses and that it moves the last user turn back into the line. |
| ChatModel.CancelStream | src/app.rs:1259-1270 | `cancel_stream`. `CancelCommits` and `CancelAndDoneAgree` state the commit of the partial text. |
| ChatModel.ClearConversation | src/app.rs:1743-1749 | `clear_conversation`. `ClearResets` states what it empties and what it keeps. |
| ChatModel.NewConversation | src/app.rs:1775-1785 | `new_conversation`. `NewConversationResets`, `NewConversationTracks` and `NewConversationKeepsRest` state the fresh record and the fields kept. |
| ChatModel.OnChunk | src/app.rs:283-293 | The `ApiChunk` arm. `ChunkAppends` and `ChunksCompose` state the buffer, the last assistant entry, the untouched wire history and record, and that splitting the text does not matter. |
| ChatModel.OnDone | src/app.rs:294-308 | The `ApiDone` arm. `DoneCommits` states the commit and the record. |
| ChatModel.OnError | src/app.rs:309-319 | The `ApiError` arm. `ErrorDropsEmptyPlaceholder` states which placeholder is dropped and the status. |
| ChatModel.HandleToolUseResponse | src/app.rs:347-387 | `handle_tool_use_response`. `ToolResponseUnparsed`, `ToolResponseWithoutCalls`, `ToolResponseStartsWalk` and `ToolResponseRuns` state its three outcomes. |
| ChatModel.ProcessNext | src/app.rs:389-431 | `process_next_tool_call`. `ProcessNextStopsAtAsk`, `ProcessNextFinishes` and `ProcessNextRuns` state where the walk stops and what it ran; `Chat.ProcessNextToolCall` is its loop. |
| ChatModel.SendToolResults | src/app.rs:523-601 | `send_tool_results`. `ResultBlockFields`, `ResultBlocksPerCall` and `SendResultsStreams` state the blocks and the new wire history; `Chat.SendToolResults` is its loop. |
| ChatModel.ConfirmKey | src/app.rs:456-521 | `handle_tool_confirm_key`. `ConfirmYes`, `ConfirmAlways`, `ConfirmNo`, `ConfirmNever`, `ConfirmOtherKeys` and `ConfirmPastEndPanics` state each key. |
| ChatModel.HistoryPrev | src/app.rs:1595-1606 | `history_prev`. `HistoryStartsAtNewest` and `HistoryBackForward` state the walk back. |
| ChatModel.HistoryNext | src/app.rs:1608-1620 | `history_next`. `HistoryBackForward` and `HistoryEndsEmpty` state the walk forward and the empty line past the newest entry. |
| ChatModel.TabComplete | src/app.rs:1622-1653 | `tab_complete`. `TabCompletesUnique` states the completion of a single match, `TabListsMatches` the listing of several, and `TabWithoutMatchKeeps` that a line without '/' or without a match is left alone; `Chat.TabComplete` is its method. |
| ChatModel.ExecuteSearch | src/app.rs:1430-1451 | `execute_search`. `SearchRecordsPositions` and `SearchFindsMatches` state the matches found; `Chat.ExecuteSearch` is its loop. |
| ChatModel.ExtractCodeBlocks | src/app.rs:1513-1546 | `extract_code_blocks`. `BlocksFromAnswers` states where the blocks come from; `Chat.ExtractCodeBlocks` is its loop. |
| ChatModel.SlashCommand | src/app.rs:862-1204 | `handle_slash_command`. The `Slash*` lemmas state each modelled command, and `SlashEffect` the shared ending. |
| ChatModel.ExecuteCommand | src/app.rs:1892-1932 | `execute_command`. `SetDelegates`, `ModelCommandStores` and `QuitWords` state its arms. |
| ChatModel.SetCommand | src/app.rs:1934-1973 | `handle_set_command`. `SetStoresModel`, `SetStoresProvider`, `SetWithoutValue` and `SetToggleTwice` state its settings. |
| ChatModel.LastWhere | src/app.rs:723 | `rposition`: the last position satisfying the test, or `None` when none does. |
| ChatModel.ExecuteAt | src/app.rs:433-454 | Running a call hands its tool to the executor, logs the invocation with its result, and leaves the calls, the index, the table, the overlay, the wire history and the spawned calls alone. |
| ChatModel.DenyAt | src/app.rs:405-418 | A denied call is logged as refused without running, and the calls, the table and the wire history are unchanged. |
| ChatModel.RejectAt | src/app.rs:456-520 | A call refused at the prompt changes neither the calls, nor the index, nor the table. |
| ChatModel.StepCall | src/app.rs:395-425 | One automatic round moves the index on by one and keeps the calls and the table. |
| ChatModel.Contents | src/app.rs:1436 | The texts of the messages, one per message, in order. |
| ChatModel.Tagged | src/app.rs:1530-1536 | Each block of a message is tagged with that message's index. |
| ChatModel.ColonNameOf | src/app.rs:1892-1932 | Only a command that starts with "set " is a `set`, and only one that starts with "model " is a `model`. |
| ChatModel.OnToolUse | src/app.rs:320-323 | The `ToolUseRequest` arm. `ChatProperties.ToolUseStopsStream` states that the stream ends and the response is handled as `handle_tool_use_response`. |
| ChatModel.OnResize | src/app.rs:324-326 | The `Resize` arm. `ChatProperties.ResizeSetsHeight` states the new height and the visible height. |
| ChatModel.OnTick | src/app.rs:327-329 | The `Tick` arm. `ChatProperties.TickAdvances` states the wrapping counter and that nothing else changes. |
| ChatModel.OnMouse | src/app.rs:330-336 | The `Mouse` arm. `ChatProperties.MouseScrollsThree` states the three-row wheel steps and that other mouse events change nothing. |
| ChatModel.Restored | src/app.rs:209-220 | `load_conversation` once the record is read. `ChatProperties.RestoredShowsRecord` states what it shows and keeps. |
| ChatModel.SaveAndTrack | src/app.rs:223-227 | `save_and_track_conversation`. `ChatProperties.SaveTracksCurrent` states the recorded id, the frame and idempotence. |
| ChatModel.UndoLine | src/app.rs:1281-1290 | `undo`. `ChatProperties.UndoRedoLines` states both statuses and the round trip with `redo`. |
| ChatModel.RedoLine | src/app.rs:1293-1302 | `redo`. `ChatProperties.UndoRedoLines` states both statuses and the round trip with `undo`. |
| ChatModel.ScrollDownBy | src/app.rs:1412-1414 | `scroll_down`. `ChatProperties.ScrollSaturates` and `ScrollUndoes` state the saturation, the frame and the round trip with `scroll_up`. |
| ChatModel.ScrollUpBy | src/app.rs:1416-1419 | `scroll_up`. `ChatProperties.ScrollSaturates` and `ScrollUndoes` state the saturation at 0, that following stops, and the round trip with `scroll_down`. |
| ChatModel.ScrollToBottom | src/app.rs:1421-1424 | `scroll_to_bottom`. `ChatProperties.ScrollJumps` states the end offset, following, idempotence and the frame. |
| ChatModel.ScrollToTop | src/app.rs:1426-1428 | `scroll_to_top`. `ChatProperties.ScrollJumps` states the 0 offset, idempotence and the frame. |
| ChatModel.NextSearchMatch | src/app.rs:1453-1464 | `next_search_match`. `ChatProperties.NextMatchIndex` and `SearchStepsWrap` state the step and the wrap. |
| ChatModel.PrevSearchMatch | src/app.rs:1465-1480 | `prev_search_match`. `ChatProperties.PrevMatchIndex` and `SearchStepsWrap` state the step back and that it undoes a step forward. |
| ChatModel.PasteClipboard | src/app.rs:1488-1500 | `paste_clipboard`. `ChatProperties.PasteInsertsAtCursor` states the inserted text, the cursor, the undo entry and the frame. |
| ChatModel.YankLastResponse | src/app.rs:1502-1509 | `yank_last_response`. `ChatProperties.YankResponseReports` states when it reports a copy and that only the status changes. |
| ChatModel.YankCodeBlock | src/app.rs:1548-1568 | `yank_code_block`. `ChatProperties.YankBlockReports` states each outcome's status and that visual mode ends. |
| ChatModel.SendCodeToNvim | src/app.rs:1571-1593 | `send_code_to_nvim`. `ChatProperties.SendToNvimReports` states each outcome's status and that only the status changes. |
| ChatModel.OverlayScrollDown | src/app.rs:1751-1753 | `overlay_scroll_down`. `ChatProperties.OverlayScrollBack` and `KeyProperties.OverlayScrolls` state the step and its inverse. |
| ChatModel.OverlayScrollUp | src/app.rs:1755-1757 | `overlay_scroll_up`. `ChatProperties.OverlayScrollBack` and `KeyProperties.OverlayScrolls` state the step, the saturation at 0 and its inverse. |
| ChatModel.OverlaySelect | src/app.rs:1759-1773 | `overlay_select`. `ChatProperties.HistoryListThenSelect` and `KeyProperties.OverlayEnterSelects` state the load and the close. |
| ChatModel.LoadHistoryList | src/app.rs:1869-1872 | `load_history_list`. `ChatProperties.HistoryListThenSelect` states the list shown and the scroll reset. |
| ChatModel.ToolsCommand | src/app.rs:943-968 | The `/tools` arm. `ChatProperties.ToolsCommandReplies` and `SlashToolsSwitch` state each argument's effect. |
| ChatModel.ThemeCommand | src/app.rs:1087-1103 | The `/theme` arm. `ChatProperties.ThemeCommandReplies`, `ThemeKnownOnly` and `ThemeListJoined` state each reply. |
| ChatModel.Allow | src/app.rs:460-466 | The 'y' answer. `ChatProperties.AllowRuns` and `ConfirmYes` state that the asked call runs and processing resumes. |
| ChatModel.Refuse | src/app.rs:477-495 | The 'n' answer. `ChatProperties.RefuseSkips`, `RefusedShape` and `ConfirmNo` state the refusal and the resumption. |
| ChatModel.Remember | src/app.rs:467-471 | The table update of the 'a' answer, and of 'd' at lines 496-500. `ChatProperties.RememberSetsTool` states that only the asked tool's permission changes. |
| Chat.ProcessNextToolCall | src/app.rs:389-431 | The `while` over the pending calls reaches exactly the state `ProcessNext` describes. |
| Chat.SendToolResults | src/app.rs:523-601 | The loop building one result block per call reaches exactly the state `SendToolResults` describes. |
| Chat.InsertText | src/app.rs:1494-1497 | Char-by-char insertion puts the whole text at the cursor and moves the cursor past it. |
| Chat.PasteClipboard | src/app.rs:1488-1500 | The paste method reaches exactly the state `PasteClipboard` describes. |
| Chat.ExecuteSearch | src/app.rs:1430-1451 | The loop over the messages reaches exactly the state `ExecuteSearch` describes. |
| Chat.ExtractCodeBlocks | src/app.rs:1513-1545 | The loop over the messages reaches exactly the state `ExtractCodeBlocks` describes. |
| Chat.TabComplete | src/app.rs:1622-1653 | The completion method reaches exactly the state `TabComplete` describes. |
| Chat.ResultBlocksSnoc | src/app.rs:527-545 | One more call adds its result block at the end. |
| Chat.MatchPositionsSnoc | src/app.rs:1436-1441 | One more message adds its index at the end when it matches. |
| Chat.CodeBlocksSnoc | src/app.rs:1516-1542 | One more message adds its blocks at the end. |
| Keybinds.HandleKey | src/keybinds.rs:23-47 | `handle_key`. `KeyProperties.GlobalKeys`, `OverlayFirst` and the four `*ModeDispatch` lemmas state the dispatch order. |
| Keybinds.NormalKey | src/keybinds.rs:49-235 | `handle_normal_mode`. The `KeyProperties.Normal*` lemmas state it key by key. |
| Keybinds.InsertKey | src/keybinds.rs:237-318 | `handle_insert_mode`. `KeyProperties.InsertPlainKeys`, `InsertControlKeys` and `InsertModifiedKeys` state it key by key. |
| Keybinds.CommandKey | src/keybinds.rs:320-347 | `handle_command_mode`. `KeyProperties.CommandEnterRuns`, `CommandTypeErase` and `LineModesIgnoreOtherKeys` state every key. |
| Keybinds.SearchKey | src/keybinds.rs:349-374 | `handle_search_mode`. `KeyProperties.SearchEnterRuns`, `SearchTypeErase` and `LineModesIgnoreOtherKeys` state every key. |
| Keybinds.OverlayKey | src/keybinds.rs:376-396 | `handle_overlay_key`. `KeyProperties.OverlayCloses`, `OverlayScrolls` and `OverlayEnterSelects` state every key. |
| EventLoop.Step | src/app.rs:237-344 | One round of `run`. `KeyProperties.QuitSaves`, `InterruptCancels` and `NonKeyRounds` state when the loop ends; `Invariant.StepKeepsValid` that every round keeps the invariant. |
| EventLoop.OnKey | src/app.rs:252-282 | The `Key` arm of that round. `KeyProperties.PromptTakesKeys` and `GlobalKeys` state who takes the key; `Invariant.OnKeyKeepsValid` that the invariant is kept. |
| Keybinds.Pop | src/keybinds.rs:334-340 | `String::pop`: the empty line stays empty, and otherwise the result and the removed last char make up the line. |
| Keybinds.ListCodeBlocks | src/keybinds.rs:198-212 | The Ctrl+y arm. `KeyProperties.ListCodeBlocksShows` states it. |
| Keybinds.SendLastCodeBlock | src/keybinds.rs:215-224 | The Ctrl+e arm. `KeyProperties.SendLastSendsNewest` states it. |
| ChatProperties.RemoveLastWhereRemovesLast | src/app.rs:723-730 | `rposition` followed by `remove` takes out exactly the last entry that satisfies the test. |
| ChatProperties.RemoveLastWhereKeeps | src/app.rs:723-730 | With no entry satisfying the test, nothing is removed. |
| ChatProperties.LastWhereIsLast | src/app.rs:810 | The last position satisfying the test is the one `rposition` reports. |
| ChatProperties.DrainTurnRemovesTurn | src/app.rs:826-858 | The last user entry goes, together with the entry after it when that one is an assistant entry, and everything before it stays. |
| ChatProperties.SendBlankIgnored | src/app.rs:604-607 | A blank input changes nothing. |
| ChatProperties.SendWithoutKey | src/app.rs:609-620 | Without a key for the provider only the status line changes, to the message naming the variable and the config path. |
| ChatProperties.SendSubmits | src/app.rs:604-659 | One user entry on each list, one empty answer on the displayed list only; streaming on, the line empty and in the input history; the spawned call carries the wire history with the new message. |
| ChatProperties.RetryRefused | src/app.rs:705-719 | While streaming, with no messages, or when the last entry is not an answer, only the status line changes. |
| ChatProperties.RetryDropsAndResends | src/app.rs:720-800 | Exactly the last displayed entry goes, and at most the last assistant entry of the wire history and of the record. The shortened history is re-sent, with a new empty answer, exactly when it is not empty and there is a key; the removals stay either way. |
| ChatProperties.EditRefused | src/app.rs:803-823 | While streaming, or with no user entry, only the status line changes. |
| ChatProperties.EditTakesLastTurn | src/app.rs:803-858 | The last user text comes back into the line with the cursor at its end, in Insert mode; that entry and the answer after it go, independently in each of the three lists. |
| ChatProperties.CancelCommits | src/app.rs:1259-1267 | Streaming stops, the buffer is emptied, the displayed list is kept, and the record gains one assistant message equal to the buffer exactly when the buffer was not empty. |
| ChatProperties.DoneCommits | src/app.rs:294-308 | `ApiDone` commits the buffer by the same rule, leaves the wire history as it is, and remembers the conversation when something was committed. |
| ChatProperties.InitialSession | src/app.rs:110-178 | Start-up is an empty line in Insert mode with nothing streaming and no wire history; the named conversation, when it loads, is current and shown with the status saying so, and otherwise a new empty record stamped with the start-up time is current. |
| ChatProperties.ChunkAppends | src/app.rs:283-293 | A chunk grows the buffer by its text, the last entry shows the whole buffer when it is an assistant entry and nothing changes otherwise; the wire history, the record and the streaming flag stay, and the view jumps to the end only under auto-scroll. |
| ChatProperties.ChunksCompose | src/app.rs:283-293 | Two chunks in a row leave the same state as one chunk with both texts. |
| ChatProperties.CancelAndDoneAgree | src/app.rs:294-308 | Cancelling and finishing leave the same record behind. |
| ChatProperties.ErrorDropsEmptyPlaceholder | src/app.rs:309-319 | An error stops the stream and removes the last entry exactly when it is an empty answer; the error is reported. |
| ChatProperties.FirstAsk | src/app.rs:395-425 | The first call at or after the index that needs asking, or the end; every call before it is allowed or denied. |
| ChatProperties.ProcessNextIsWalk | src/app.rs:389-431 | Processing is the walk, then either the prompt or the results. |
| ChatProperties.StepCallShape | src/app.rs:395-425 | An allowed call hands its tool to the executor and a denied one does not; both log the call's entry. |
| ChatProperties.WalkShape | src/app.rs:395-431 | The walk never moves the index back; it stops at the first call that needs asking, runs exactly the allowed calls, logs one entry per call, and keeps the calls, the table, the wire history and the spawned calls. |
| ChatProperties.ProcessNextStopsAtAsk | src/app.rs:419-423 | At a call that needs asking the prompt is shown for that call and nothing is sent. |
| ChatProperties.ProcessNextFinishes | src/app.rs:427-430 | When no call needs asking, every call is walked, the results are sent and a new answer is streamed. |
| ChatProperties.NothingAllowedNothingRun | src/app.rs:405-418 | With no allowed call in the range, nothing is handed to the executor. |
| ChatProperties.WalkLogLength | src/app.rs:395-425 | The log gains one entry per walked call. |
| ChatProperties.ResultBlockFields | src/app.rs:534-540 | A result block carries the call's id, the output, and `is_error` exactly when the tool failed. |
| ChatProperties.ResultBlocksLength | src/app.rs:527-545 | One result block per pending call. |
| ChatProperties.ResultBlockAt | src/app.rs:527-545 | Block i answers call i with the result logged under that call's tool name. |
| ChatProperties.ResultBlocksPerCall | src/app.rs:527-545 | One block per call, in call order, each with the call's id and the result logged under its tool name. |
| ChatProperties.ResultForLatest | src/app.rs:527-533 | The result for a name is that of the latest invocation with that name, so two calls of one tool both report the later result. |
| ChatProperties.ResultForMissing | src/app.rs:527-533 | With no invocation of that name the call is reported as not executed. |
| ChatProperties.SendResultsStreams | src/app.rs:546-573 | With calls pending, the results always go on the wire, the calls and the index are cleared, streaming is on and the placeholder is added, even when no call can be spawned for want of a key. |
| ChatProperties.ProcessNextRuns | src/app.rs:389-431 | Whether it stops or finishes, processing runs exactly the allowed calls up to the first that needs asking, logs one entry per walked call, shows the prompt if it stopped, and keeps the table. |
| ChatProperties.WalkStart | src/app.rs:347-385 | The walk starts with the parsed calls pending from index 0 and the assistant's blocks on the wire, streamed text shown, and the table and log unchanged. |
| ChatProperties.ToolResponseUnparsed | src/app.rs:348-354 | A response that does not parse only sets the status line. |
| ChatProperties.ToolResponseWithoutCalls | src/app.rs:357-377 | A response without tool calls still puts the assistant's blocks on the wire and changes nothing else. |
| ChatProperties.ToolResponseStartsWalk | src/app.rs:378-385 | A response with tool calls walks them from the first. |
| ChatProperties.ToolResponseRuns | src/app.rs:347-431 | With tool calls, exactly the allowed calls before the first one that needs asking run, one log entry each, and the prompt is shown if it stopped. |
| ChatProperties.RunAskedShape | src/app.rs:460-476 | After the asked call runs, processing resumes from the next call. |
| ChatProperties.AllowRuns | src/app.rs:460-476 | Allowing runs the asked call, then resumes from the next one with the table unchanged. |
| ChatProperties.ConfirmYes | src/app.rs:460-466 | 'y' or Enter closes the prompt and allows the call. |
| ChatProperties.ConfirmAlways | src/app.rs:467-476 | 'a' first makes the tool always allowed, then allows the call. |
| ChatProperties.ConfirmNo | src/app.rs:477-495 | 'n' or Esc refuses the call. |
| ChatProperties.ConfirmNever | src/app.rs:496-517 | 'd' first makes the tool always denied, then refuses the call. |
| ChatProperties.RefuseSkips | src/app.rs:477-517 | Refusing logs the asked call as refused, does not run it, and resumes with the next call. |
| ChatProperties.RefusedShape | src/app.rs:477-517 | After a refusal, processing resumes from the next call. |
| ChatProperties.ConfirmOtherKeys | src/app.rs:518 | Keys other than the four answers change nothing. |
| ChatProperties.ConfirmPastEndPanics | src/app.rs:460-517 | The answers index the pending calls at the confirmation index, which panics when it is past the end. |
| ChatProperties.SearchRecordsPositions | src/app.rs:1430-1451 | A search records the matching positions, starts at the first, and keeps the query. |
| ChatProperties.SearchFindsMatches | src/app.rs:1430-1451 | A search lists, in order, exactly the messages whose lowered text contains the lowered query. |
| ChatProperties.NextMatchIndex | src/app.rs:1453-1463 | Stepping forward keeps the list of matches and moves the match index as `NextMatch` says. |
| ChatProperties.PrevMatchIndex | src/app.rs:1465-1479 | Stepping back keeps the list of matches and moves the match index as `PrevMatch` says. |
| ChatProperties.SearchStepsWrap | src/app.rs:1453-1479 | Stepping goes round: forward from the last match reaches the first, and back then forward returns to where it was. |
| ChatProperties.HistoryStartsAtNewest | src/app.rs:1595-1606 | The first step back shows the newest entry of the input history. |
| ChatProperties.HistoryBackForward | src/app.rs:1595-1620 | Back then forward returns to the same entry; the oldest entry is where going back stops. |
| ChatProperties.HistoryEndsEmpty | src/app.rs:1608-1620 | Forward past the newest entry empties the line and leaves the history. |
| ChatProperties.TabCompletesUnique | src/app.rs:1643-1647 | A single matching command name is completed with a space after it and the cursor at the end; nothing else changes. |
| ChatProperties.TabListsMatches | src/app.rs:1642-1652 | Several matching names are listed in the status line, two spaces apart, and the line is kept; each listed name is a command the line starts. |
| ChatProperties.TabWithoutMatchKeeps | src/app.rs:1622-1653 | A line that does not start with '/', or that no command name starts with, changes nothing. |
| ChatProperties.BlockFromAnswer | src/app.rs:1513-1545 | Each code block comes from an assistant entry and carries that entry's index. |
| ChatProperties.BlocksFromAnswers | src/app.rs:1513-1545 | Every code block comes from an assistant entry and carries that entry's index. |
| ChatProperties.ClearResets | src/app.rs:1743-1749 | The three lists and the invocation log are emptied, a fresh record is started, the status is set, and nothing else changes. |
| ChatProperties.NewConversationResets | src/app.rs:1775-1785 | The three lists and the invocation log are emptied, a fresh record is started, and the view scrolls to the top. |
| ChatProperties.NewConversationTracks | src/app.rs:1775-1785 | The old conversation is remembered as the last session exactly when it had messages; no other setting changes. |
| ChatProperties.NewConversationKeepsRest | src/app.rs:1775-1785 | Nothing beyond the lists, the record, the settings, the scroll position and the status changes. |
| ChatProperties.SplitCommandAtSpace | src/app.rs:863 | `splitn(2, ' ')`: the word before the first space, and everything after it. |
| ChatProperties.SplitCommandWhole | src/app.rs:863 | A command without a space is all command word. |
| ChatProperties.SlashEffect | src/app.rs:862-1203 | The commands that do not return early have their effect, then the line is emptied. |
| ChatProperties.SlashUndoFirst | src/app.rs:1181-1186 | `/undo` empties the line before undoing. |
| ChatProperties.SlashClearIsClear | src/app.rs:865-871 | `/clear` and `/c` do what `clear_conversation` does, then empty the line. |
| ChatProperties.SlashNewIsNew | src/app.rs:872-874 | `/new` and `/n` do what `new_conversation` does, then empty the line. |
| ChatProperties.SlashModelStores | src/app.rs:875-883 | `/model m` stores the identifier `m` resolves to and reports it. |
| ChatProperties.SlashProviderStores | src/app.rs:891-898 | `/provider p` stores `p` untrimmed and reports it. |
| ChatProperties.SlashToolsSwitch | src/app.rs:943-969 | `/tools on` and `/tools off` switch tool use, empty the line, and change no setting. |
| ChatProperties.SlashUnknownReports | src/app.rs:1196-1198 | A word that no arm knows is reported as an unknown command. |
| ChatProperties.SlashUndoAfterClear | src/app.rs:1181-1186 | Because the line is emptied first, `/undo` brings back the last saved line and leaves the empty line, not the command, to redo. |
| ChatProperties.ThemeKnownOnly | src/app.rs:1087-1103 | A known theme, trimmed, is taken; an unknown one keeps the current theme; no other setting changes. |
| ChatProperties.SplitSettingAtFirst | src/app.rs:1935 | `splitn(2, '=')`: the key before the first '=', the value after it. |
| ChatProperties.SplitSettingWithout | src/app.rs:1935 | A setting without '=' is all key. |
| ChatProperties.TrimKeepsWord | src/app.rs:1893 | A word without whitespace stays at the front of the trimmed text it starts. |
| ChatProperties.TrimmedSet | src/app.rs:1893 | A command starting "set " still starts with "set" once trimmed. |
| ChatProperties.TrimmedModel | src/app.rs:1893 | A command starting "model " still starts with "model" once trimmed. |
| ChatProperties.SetPrefixClassified | src/app.rs:1892-1932 | Any text after "set " is a `set` command. |
| ChatProperties.ModelPrefixClassified | src/app.rs:1892-1932 | Any text after "model " is a `model` command. |
| ChatProperties.SetDelegates | src/app.rs:1892-1932 | `:set` hands the rest of the command to the settings. |
| ChatProperties.SetStoresModel | src/app.rs:1934-1971 | `model=v` stores the trimmed value, reports it, and changes no other setting. |
| ChatProperties.SetStoresProvider | src/app.rs:1934-1971 | `provider=v` stores the trimmed value, reports it, and changes no other setting. |
| ChatProperties.SetWithoutValue | src/app.rs:1934-1971 | Without a value, `model` and `provider` change nothing. |
| ChatProperties.ModelCommandStores | src/app.rs:1892-1932 | `:model m` stores the trimmed name and reports it. |
| ChatProperties.SetToggleTwice | src/app.rs:1934-1971 | `:set vim` and `:set tools` are toggles: the same command twice restores both switches. |
| ChatProperties.QuitWords | src/app.rs:1892-1932 | `:q`, `:quit` and `:wq` only ask the loop to end. |
| ChatProperties.ThemeListJoined | src/app.rs:1087-1103 | The theme list in the unknown-theme message is the theme names joined with ", ". |
| ChatProperties.ScrollSaturates | src/app.rs:1412-1419 | Down saturates at the top of `usize`, up at 0; up stops following; nothing else changes. |
| ChatProperties.ScrollUndoes | src/app.rs:1412-1419 | Away from the bounds, down then up, or up then down, by the same amount returns to the same offset. |
| ChatProperties.ScrollJumps | src/app.rs:1421-1428 | Jumping to the end follows output, jumping to the start keeps the flag; both are idempotent and change nothing else. |
| ChatProperties.TickAdvances | src/app.rs:327-329 | A tick adds one to the counter, wrapping to 0 past 2^64 - 1, and changes nothing else. |
| ChatProperties.ResizeSetsHeight | src/app.rs:324-326 | A resize records the height; the visible height is that less six rows, or 0. |
| ChatProperties.MouseScrollsThree | src/app.rs:330-336 | The wheel scrolls three rows each way; down then up returns; other mouse events change nothing. |
| ChatProperties.ToolUseStopsStream | src/app.rs:320-323 | A tool-use request stops the stream and hands the body to `handle_tool_use_response`. |
| ChatProperties.SaveTracksCurrent | src/app.rs:223-227 | Saving records the current id as the last session, changes nothing else, and is idempotent. |
| ChatProperties.RestoredShowsRecord | src/app.rs:209-220 | A loaded record becomes current and its messages are shown, scrolled to the end; the wire history and the line are kept. |
| ChatProperties.UndoRedoLines | src/app.rs:1281-1302 | Undo and redo report when there is nothing to do, and otherwise each gives back what the other took. |
| ChatProperties.YankBlockReports | src/app.rs:1548-1568 | Yanking a block ends visual mode and reports a missing block, a clipboard failure, or the yanked block's number. |
| ChatProperties.YankResponseReports | src/app.rs:1502-1509 | Copying the last response is reported when an assistant entry exists and the clipboard opens; without one nothing changes. |
| ChatProperties.SendToNvimReports | src/app.rs:1571-1593 | Sending a block reports a missing block, no editor, the editor's error, or the sent block's number; only the status changes. |
| ChatProperties.PasteInsertsAtCursor | src/app.rs:1488-1500 | The clipboard text is inserted at the cursor as one undoable edit and the cursor moves past it; without text nothing changes. |
| ChatProperties.HistoryListThenSelect | src/app.rs:1759-1773 | Opening the history list shows the saved records from the first, and Enter then loads the first. |
| ChatProperties.OverlayScrollBack | src/app.rs:1751-1757 | One line down then up, or up from above 0 then down, returns to the same entry. |
| ChatProperties.ToolsCommandReplies | src/app.rs:943-968 | `/tools` reports the switch and the permissions, sets the switch on "on" and "off", and answers anything else with the usage text. |
| ChatProperties.ThemeCommandReplies | src/app.rs:1087-1103 | `/theme` reports the current theme, a change to a known theme, or the list of known ones. |
| ChatProperties.RememberSetsTool | src/app.rs:467-471 | The asked tool gets the chosen permission and every other tool keeps its own. |
| KeyProperties.GlobalKeys | src/keybinds.rs:23-34 | Ctrl+c gives `CancelStream` while streaming and `Quit` otherwise, Ctrl+q gives `Quit`; neither changes the state, whatever the mode or overlay. |
| KeyProperties.OverlayFirst | src/keybinds.rs:37-39 | An open overlay takes every other key; the mode handlers are not consulted. |
| KeyProperties.CommandModeDispatch | src/keybinds.rs:41-46 | Command mode sees the key code only. |
| KeyProperties.InsertModeDispatch | src/keybinds.rs:41-46 | Insert mode sees the whole key. |
| KeyProperties.NormalModeDispatch | src/keybinds.rs:41-46 | Normal mode sees the whole key. |
| KeyProperties.SearchModeDispatch | src/keybinds.rs:41-46 | Search mode sees the key code only. |
| KeyProperties.OverlayCloses | src/keybinds.rs:376-396 | Esc and 'q' close the overlay; keys the overlay does not use change nothing. |
| KeyProperties.CommandEnterRuns | src/keybinds.rs:327-333 | Enter runs the text typed so far, with the line emptied and Normal mode back first. |
| KeyProperties.CommandTypeErase | src/keybinds.rs:320-347 | A char is appended and Backspace removes it again; erasing the last char returns to Normal mode, and Esc abandons the line. |
| KeyProperties.SearchEnterRuns | src/keybinds.rs:356-360 | Enter searches for the query typed so far, back in Normal mode with the query kept. |
| KeyProperties.SearchTypeErase | src/keybinds.rs:349-374 | The search line takes, erases and abandons chars as the command line does. |
| KeyProperties.OverlayScrolls | src/keybinds.rs:382-389 | j and Down move the overlay down one line, saturating at the top of `usize`; k and Up move it up one line, stopping at 0. |
| KeyProperties.OverlayEnterSelects | src/app.rs:1759-1773 | Enter in the history list loads the selected conversation and closes the list, only closes it when the load fails, and does nothing past the end of the list; in any other overlay it closes the overlay. |
| KeyProperties.LineModesIgnoreOtherKeys | src/keybinds.rs:320-374 | In the command and search lines every key other than Esc, Enter, Backspace and a char changes nothing and leaves no action. |
| KeyProperties.InsertPlainKeys | src/keybinds.rs:237-318 | Without modifiers: Esc leaves, Enter asks to send a line that is not blank and changes nothing, the editing and cursor keys edit, Up and Down walk the history, Tab completes, and a char is typed. |
| KeyProperties.InsertControlKeys | src/keybinds.rs:261-303 | With Ctrl: h, w and u delete, a and e go to the start and end of the line, p and n walk the history; any other key does nothing. |
| KeyProperties.InsertModifiedKeys | src/keybinds.rs:255-316 | With any other modifier set: Shift+Enter and Alt+Enter insert a line break, a shifted char is typed, and nothing else is handled. |
| KeyProperties.NormalPlainArrows | src/keybinds.rs:84-118 | Without modifiers, Down and Up scroll one line and Left and Right move the cursor; every other non-char key changes nothing. |
| KeyProperties.NormalModeChars | src/keybinds.rs:52-83 | 'i', 'a' and 'o' enter Insert mode (after the cursor, and on a new line opened after the cursor's line), ':' and '/' open the command and search lines empty, '?' opens the help. |
| KeyProperties.NormalScrollChars | src/keybinds.rs:84-107 | 'j' scrolls down a line, 'k' up a line, 'g' to the top. |
| KeyProperties.NormalMoveChars | src/keybinds.rs:111-118 | 'h' and 'l' move the cursor a char left and right. |
| KeyProperties.NormalWordForward | src/keybinds.rs:119-122 | 'w' moves the cursor a word forward. |
| KeyProperties.NormalWordBack | src/keybinds.rs:123-126 | 'b' moves the cursor a word back. |
| KeyProperties.NormalMoveHome | src/keybinds.rs:127-130 | '0' moves the cursor to the start of the line. |
| KeyProperties.ListCodeBlocksShows | src/keybinds.rs:198-212 | Ctrl+y collects the blocks; with some it enters visual mode and lists them, without any it says so; only the blocks, the mode flag and the status change. |
| KeyProperties.SendLastSendsNewest | src/keybinds.rs:215-224 | Ctrl+e collects the blocks and sends the newest one to Neovim, reporting as `send_code_to_nvim` does, or says there is none; only the blocks and the status change. |
| KeyProperties.NormalDeleteChars | src/keybinds.rs:137-145 | 'x' deletes the char under the cursor and 'd' the whole line. |
| KeyProperties.NormalOtherChars | src/keybinds.rs:146-235 | 'p' pastes, 'n' goes to the next match, 'e' edits the last message only while the line is empty, 'y' copies the last answer, a digit c yanks block c - '1' only in visual mode; any other char does nothing. |
| KeyProperties.NormalShiftKeys | src/keybinds.rs:61-181 | With Shift: A and I enter Insert mode at the end or start of the line, G and g scroll to the bottom and top, $ goes to the end of the line and N to the previous match. |
| KeyProperties.NormalControlKeys | src/keybinds.rs:92-226 | With Ctrl: d and u scroll half a screen, g goes to the top, h opens the saved conversations, n starts a new one, r asks to retry, y lists the code blocks and e sends the last one to the editor. |
| KeyProperties.NormalModifiedKeys | src/keybinds.rs:104-107 | With any other modifier set only g is handled, and it scrolls to the top. |
| KeyProperties.PromptTakesKeys | src/app.rs:252-259 | While the tool prompt is shown it takes every key, Ctrl+c and Ctrl+q included, and the loop does not end. |
| KeyProperties.QuitSaves | src/app.rs:262-267 | Quitting ends the loop and saves and remembers a conversation that has messages. |
| KeyProperties.InterruptCancels | src/app.rs:271-273 | Ctrl+c during a stream cancels it and the loop goes on. |
| KeyProperties.NonKeyRounds | src/app.rs:283-342 | A round that does not come from a key ends the loop exactly when the new state asks to quit. |
| Text.FindBy | src/app.rs:1395-1397 | `find` with a char test: the first position whose char passes it, and `None` exactly when no char does. |
| Text.RFindBy | src/app.rs:1344 | `rfind` with a char test: the last position whose char passes it, and `None` exactly when no char does. |
| Text.RFindChar | src/app.rs:1385 | `rfind(c)`: the last position holding `c`, and `None` exactly when `c` does not occur. |
| Text.TrimEndChar | src/app.rs:1536 | `trim_end_matches('\n')`: a prefix of the text that does not end in the char; everything dropped is that char. |
| Text.IntToString | src/tools.rs:355 | A negative exit code is written with a leading '-', and only a negative one; the digits after the sign read back as the absolute value. |
| Text.CharUtf8Len | src/app.rs:1308 | `len_utf8` is between one and four bytes. |
| Invariant.StepKeepsValid | src/app.rs:237-344 | Every round of the event loop, whatever the event, keeps the editor, the input-history position, the confirmation index, the tick counter and the search position in range. |
| Invariant.InitialValid | src/app.rs:110-178 | The start-up state satisfies the invariant, with or without a restored conversation, so the first round of `run` may begin. |
| Invariant.OnKeyKeepsValid | src/app.rs:252-282 | A key press keeps the invariant, whether the prompt, the global keys, the overlay or a mode handler takes it. |
| Invariant.HandleKeyKeepsValid | src/keybinds.rs:23-47 | Key dispatch keeps the invariant in every mode. |
| Invariant.ToolUseKeepsValid | src/app.rs:347-385 | A tool-use response keeps the invariant, whether it does not parse, has no call, or starts the walk. |
| Invariant.ProcessNextKeepsValid | src/app.rs:389-431 | The walk keeps the confirmation index within the pending calls, and both are cleared together when the results go out. |
| Invariant.ConfirmKeepsValid | src/app.rs:456-520 | Whatever key answers the prompt, the invariant holds afterwards. |
| Invariant.SlashKeepsValid | src/app.rs:862-1203 | Every slash command keeps the invariant. |
| Invariant.CommandEffectUntouched | src/app.rs:875-1198 | The slash commands that end by emptying the line change none of the fields the invariant looks at. |
| Invariant.ExecuteCommandUntouched | src/app.rs:1892-1932 | Colon commands change none of the fields the invariant looks at. |
| Invariant.SendKeepsValid | src/app.rs:603-700 | Sending keeps the invariant: the line is emptied and the history position cleared. |
| Invariant.RetryUntouched | src/app.rs:704-800 | Retrying changes none of the fields the invariant looks at. |
| Invariant.EditKeepsValid | src/app.rs:803-860 | Editing the last message puts it on the line with the cursor at its end, which keeps the invariant. |
| Invariant.CancelUntouched | src/app.rs:1259-1267 | Cancelling changes none of the fields the invariant looks at. |
| Invariant.ChunkUntouched | src/app.rs:283-293 | A text chunk changes none of the fields the invariant looks at. |
| Invariant.DoneUntouched | src/app.rs:294-308 | The end of a stream changes none of the fields the invariant looks at. |
| Invariant.ErrorUntouched | src/app.rs:309-319 | A stream error changes none of the fields the invariant looks at. |
| Invariant.TickKeepsValid | src/app.rs:327-329 | The tick counter wraps within `u64`. |
| Invariant.UndoKeepsValid | src/app.rs:1281-1290 | Undo keeps the invariant. |
| Invariant.HistoryPrevKeepsValid | src/app.rs:1595-1606 | Going back in the input history keeps its position in range. |
| Invariant.SearchKeepsValid | src/app.rs:1430-1451 | A search leaves the match position on a match, or there are none. |
| Invariant.NextMatchKeepsValid | src/app.rs:1453-1463 | Stepping to the next match keeps the position on a match. |
| Invariant.PasteKeepsValid | src/app.rs:1488-1500 | Pasting keeps the invariant. |
| Invariant.TabCompleteKeepsValid | src/app.rs:1622-1653 | Completion keeps the invariant. |
| Invariant.NewConversationUntouched | src/app.rs:1775-1785 | A new conversation changes none of the fields the invariant looks at. |
| Invariant.OverlaySelectUntouched | src/app.rs:1759-1773 | Opening a saved conversation changes none of the fields the invariant looks at. |

## Left out

- `App` is modelled as a value (`ChatModel.AppState`), not as an object updated in place. Each method returns the new state, so aliasing and the order of field updates inside one method are not modelled. Only `ToolExecutor` and `Conversation` are classes.
- Terminal drawing (`ui.rs`), the layout, colours and themes' appearance: the model keeps only the values the drawing reads (theme name, scroll offset, overlay, status line).
- Concurrency: the spawned API task, the event channel and the tokio runtime. A spawned call is recorded in `spawned`, and its events arrive later as ordinary events of `EventLoop.Step`.
- HTTP: `reqwest`, the request bodies other than the OpenAI message list, and lossy UTF-8 decoding of the byte chunks. The stream is modelled on text chunks.
- Floating point: the temperature. `/temp` and `:set temp=` leave the state unchanged, so the "Temperature: {t}" status is not modelled either.
- Timing: the spinner tick is only the `u64` counter, the tool timeout is a flag of the spawn outcome, and the bell is not modelled.
- The cursor is a char index, not a byte offset. The source moves it by `len_utf8`, so its positions coincide with the model's only for ASCII text.
- The slash commands `/temp`, `/t`, `/nvim`, `/file`, `/f`, `/context`, `/ctx`, `/paste`, `/resume`, `/r`, `/diff`, `/d`, `/export`, `/run` and `/!` lean on files, processes, Neovim or floating point. The model leaves the whole state unchanged for them, the input line included.
- `tab_complete_path`, `export_conversation`, `load_project_context`, `paste_clipboard_as_codeblock` and `delete_history_entry` do file-system or clipboard I/O beyond what the model keeps, and are not modelled.
- `/save` always reports "Config saved". The error return of a failed `Config::save` is not modelled.
- Saving, loading and deleting a conversation file (`save`, `load`, `delete` in `src/history.rs`), and serde. The saved conversations are an input (`Env.saved`, `Env.load`), and saving is the record the state holds.
- The file system, globbing, `rg`/`grep` and `sh -c` are oracles: what they return is a parameter of each outcome function, such as `Tools.WaitOutcome`. Only how each tool turns that into a `ToolResult` is modelled.
- Neovim (`send_code_to_nvim`): only whether sending succeeded, an input, is modelled.
- Unicode lowercasing for search is the input `Env.lower`. `Input.MatchPositions` assumes nothing about it.
- The Rust panic when a confirmation key arrives with the index past the end is the flag `panicked`. The model does not stop there.
- Reading the API keys from the environment is replaced by `Env.anthropicKey` and `Env.openAiKey`.
- The loading and saving of `Config` itself (`src/config.rs`) is not part of this model.
