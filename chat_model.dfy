/** The state of the chat application as one value, and every operation of `App` as a
    function from the state before to the state after. The loops inside these operations
    are methods of module `Chat` proved against these functions; their properties are
    proved in `ChatProperties`.

    What the program takes from its surroundings is passed in an `Env`: the API keys as
    resolved from the configuration and the environment, the clock, fresh identifiers,
    JSON parsing, tool execution, lower-casing, the saved conversations on disk, the
    clipboard and the editor connection. Calls to the provider are not made: each one the
    program would spawn is recorded, with the history it would send, in `spawned`. */
module ChatModel {
  import opened Wrappers
  import opened Text
  import Json
  import opened Tools
  import Provider
  import History
  import Input
  import Events

  // Status-line messages.
  const RestoredSession: string := "Restored previous session"
  const RetryWhileStreaming: string := "Cannot retry while streaming"
  const NoMessagesToRetry: string := "No messages to retry"
  const NoAssistantToRetry: string := "No assistant message to retry"
  const NoUserToRetry: string := "No user message to retry"
  const NoApiKey: string := "No API key set"
  const Regenerating: string := "Regenerating..."
  const EditWhileStreaming: string := "Cannot edit while streaming"
  const NoUserToEdit: string := "No user message to edit"
  const EditingLast: string := "Editing last message"
  const StreamCancelled: string := "Stream cancelled"
  const ConversationCleared: string := "Conversation cleared"
  const NewConversationStatus: string := "New conversation"
  const ErrorPrefix: string := "Error: "
  const ToolParseFailure: string := "Failed to parse tool response: "
  const DeniedOnWire: string := "Tool execution denied by user"
  const DeniedByUser: string := "Denied by user"
  const NothingToUndo: string := "Nothing to undo"
  const NothingToRedo: string := "Nothing to redo"
  const PatternNotFound: string := "Pattern not found: "
  const ClipboardFailure: string := "Failed to access clipboard"
  const NoNeovim: string := "No neovim connection"
  const NeovimError: string := "Neovim error: "
  const ResponseCopied: string := "Response copied to clipboard"
  const ToolsEnabledStatus: string := "Tools enabled"
  const ToolsDisabledStatus: string := "Tools disabled"
  const ToolsUsage: string := "Usage: /tools [on|off]"
  const CurrentTheme: string := "Current theme: "
  const ThemeSet: string := "Theme set to "
  const UnknownTheme: string := "Unknown theme: "
  const RemovedResponse: string := "Removed last response. Use Ctrl+r to regenerate, or re-send your message."
  const ModelSet: string := "Model set to "
  const CurrentModel: string := "Current model: "
  const ProviderSet: string := "Provider set to "
  const CurrentProvider: string := "Current provider: "
  const SystemPromptUpdated: string := "System prompt updated"
  const NoSystemPrompt: string := "No system prompt set"
  const ConfigSaved: string := "Config saved"
  const UnknownCommand: string := "Unknown command: "
  const UnknownColonCommand: string := "Unknown command: :"
  const UnknownSetting: string := "Unknown setting: "
  const NoResult: string := "No result"
  const NotExecuted: string := "Tool not executed"
  const DeniedShort: string := "Denied"
  const YankedBlock: string := "Yanked block #"
  const NoCodeBlock: string := "No code block #"
  const SentBlock: string := "Sent block #"
  const CodeBlocksPrefix: string := "Code blocks: "
  const ModelPrefix: string := "Model: "
  const ProviderPrefix: string := "Provider: "
  const VimModePrefix: string := "Vim mode: "
  const ToolsPrefix: string := "Tools: "
  const NoKeyPrefix: string := "No API key set. Set "
  const NoKeyConfig: string := " or add to config: "
  const OpenAiKeyVar: string := "OPENAI_API_KEY"
  const AnthropicKeyVar: string := "ANTHROPIC_API_KEY"
  const ToNeovim: string := "] to neovim"
  const AvailableThemes: string := ". Available: "

  datatype InputMode = Normal | Insert | Command | Search

  datatype Overlay = NoOverlay | Help | HistoryOverlay | Settings | ToolConfirm

  /** A tool call as shown in the chat, with its result once it has one. */
  datatype ToolInvocation = ToolInvocation(toolName: string, toolArgs: string, result: Option<ToolResult>, collapsed: bool)

  /** One entry of the displayed conversation. */
  datatype ChatMessage = ChatMessage(role: string, content: string, timestamp: int, toolInvocations: seq<ToolInvocation>)

  /** The settings the chat operations read and change (the sampling temperature, a float,
      is not part of the model). */
  datatype Config = Config(provider: string, model: string, systemPrompt: Option<string>,
                           themeName: string, vimMode: bool, lastConversationId: Option<string>)

  /** Which provider call is spawned: an OpenAI stream, an Anthropic stream, or an Anthropic
      request that may answer with tool calls. */
  datatype Route = OpenAiStream | AnthropicStream | AnthropicTools

  /** A spawned provider call: the route, the key, the model, the system prompt, and the
      wire history it sends. */
  datatype Spawn = Spawn(route: Route, apiKey: string, model: string, system: Option<string>,
                         history: seq<Provider.Message>)

  /** The inputs of one step. `anthropicKey` and `openAiKey` are the keys as
      `api_key_from_env` resolves them (the configured key, else the environment variable);
      `saved` is what `list_all` reads (empty on an error); `load` is `Conversation::load`;
      `clipboardText` is what reading the clipboard gives; `nvim` is `None` without an
      editor connection and otherwise the outcome of sending to it. */
  datatype Env = Env(
    anthropicKey: Option<string>,
    openAiKey: Option<string>,
    configPath: string,
    now: int,
    freshId: string,
    parse: string -> Result<Json.Value, string>,
    runTool: Tool -> ToolResult,
    lower: string -> string,
    saved: seq<History.Record>,
    load: string -> Option<History.Record>,
    clipboardOpen: bool,
    clipboardText: Option<string>,
    nvim: Option<Result<(), string>>)

  /** Everything `App` holds that its operations read or change. `edit` is the input line
      with its undo and redo stacks, `conversation` the persisted record, `permissions` the
      tool executor's table; `executed` lists the tools handed to the executor and
      `panicked` records that the program would have panicked. */
  datatype AppState = AppState(
    config: Config,
    edit: Input.EditState,
    inputMode: InputMode,
    messages: seq<ChatMessage>,
    scrollOffset: nat,
    streaming: bool,
    streamBuffer: string,
    commandInput: string,
    overlay: Overlay,
    overlayScroll: nat,
    status: Option<string>,
    conversation: History.Record,
    historyList: seq<History.Record>,
    inputHistory: seq<string>,
    historyIdx: Option<nat>,
    shouldQuit: bool,
    terminalHeight: nat,
    permissions: map<string, Permission>,
    pending: seq<ToolCall>,
    confirmIdx: nat,
    invocations: seq<ToolInvocation>,
    apiMessages: seq<Provider.Message>,
    toolsEnabled: bool,
    visualMode: bool,
    codeBlocks: seq<Input.CodeBlock>,
    searchQuery: string,
    searchMatches: seq<nat>,
    searchMatchIdx: nat,
    tickCount: nat,
    autoScroll: bool,
    spawned: seq<Spawn>,
    executed: seq<Tool>,
    panicked: bool)

  /** `usize::MAX` on a 64-bit target. */
  const UsizeMax: nat := 0xFFFF_FFFF_FFFF_FFFF

  /** The tick counter is a `u64` that wraps. */
  const TickModulus: nat := 0x1_0000_0000_0000_0000

  /** What every operation keeps: the editor's invariant, an input-history position within
      the history, a confirmation index within the pending calls, a tick counter within
      `u64`, and a search position within the matches. */
  predicate Valid(s: AppState)
  {
    && Input.EditValid(s.edit)
    && (s.historyIdx.Some? ==> s.historyIdx.value < |s.inputHistory|)
    && s.confirmIdx <= |s.pending|
    && s.tickCount < TickModulus
    && (s.searchMatches == [] || s.searchMatchIdx < |s.searchMatches|)
  }

  // ---------------------------------------------------------------------------
  // Roles and the three message lists
  // ---------------------------------------------------------------------------

  predicate IsUserChat(m: ChatMessage) { m.role == "user" }
  predicate IsAssistantChat(m: ChatMessage) { m.role == "assistant" }
  predicate IsUserWire(m: Provider.Message) { m.role == "user" }
  predicate IsAssistantWire(m: Provider.Message) { m.role == "assistant" }
  predicate IsUserSaved(m: History.SavedMessage) { m.role == "user" }
  predicate IsAssistantSaved(m: History.SavedMessage) { m.role == "assistant" }

  /** `iter().rposition(p)`: the last position whose element satisfies `p`. */
  function LastWhere<T>(s: seq<T>, p: T -> bool): (r: Option<nat>)
    ensures r.Some? ==> r.value < |s| && p(s[r.value]) && forall j :: r.value < j < |s| ==> !p(s[j])
    ensures r.None? ==> forall j :: 0 <= j < |s| ==> !p(s[j])
  {
    if s == [] then None
    else if p(s[|s| - 1]) then Some(|s| - 1)
    else LastWhere(s[..|s| - 1], p)
  }

  /** `if let Some(pos) = rposition(p) { remove(pos) }` */
  function RemoveLastWhere<T>(s: seq<T>, p: T -> bool): seq<T>
  {
    match LastWhere(s, p)
    case None => s
    case Some(k) => s[..k] + s[k + 1..]
  }

  /** The removal `edit_last_message` makes in each list: the last user entry, and the entry
      after it too when that one is an assistant entry. */
  function DrainTurn<T>(s: seq<T>, isUser: T -> bool, isAssistant: T -> bool): seq<T>
  {
    match LastWhere(s, isUser)
    case None => s
    case Some(k) =>
      var end := if k + 1 < |s| && isAssistant(s[k + 1]) then k + 2 else k + 1;
      s[..k] + s[end..]
  }

  /** An empty assistant entry, filled in as the answer streams in. */
  function Placeholder(now: int): ChatMessage
  {
    ChatMessage("assistant", "", now, [])
  }

  /** The displayed list with the last entry's text replaced, when it is an assistant entry. */
  function WithLastContent(ms: seq<ChatMessage>, content: string): seq<ChatMessage>
  {
    if ms != [] && IsAssistantChat(ms[|ms| - 1]) then ms[..|ms| - 1] + [ms[|ms| - 1].(content := content)]
    else ms
  }

  /** The displayed list with `inv` added to the last entry, when it is an assistant entry. */
  function Attach(ms: seq<ChatMessage>, inv: ToolInvocation): seq<ChatMessage>
  {
    if ms != [] && IsAssistantChat(ms[|ms| - 1]) then
      var last := ms[|ms| - 1];
      ms[..|ms| - 1] + [last.(toolInvocations := last.toolInvocations + [inv])]
    else ms
  }

  /** The displayed form of saved messages (`load_conversation`). */
  function Displayed(ms: seq<History.SavedMessage>): (r: seq<ChatMessage>)
  {
    seq(|ms|, i requires 0 <= i < |ms| => ChatMessage(ms[i].role, ms[i].content, ms[i].timestamp, []))
  }

  function WithStatus(s: AppState, text: string): AppState
  {
    s.(status := Some(text))
  }

  // ---------------------------------------------------------------------------
  // Start-up, scrolling and the provider key
  // ---------------------------------------------------------------------------

  /** The permissions `App::new` sets: the read-only tools run without asking. */
  const InitialPermissions: map<string, Permission> :=
    map["read_file" := AutoAllow, "list_files" := AutoAllow, "search_files" := AutoAllow]

  /** `load_conversation` once the record was read: the messages are shown and the record
      becomes the current conversation; the wire history is left as it was. */
  function Restored(s: AppState, r: History.Record): AppState
  {
    ScrollToBottom(s.(messages := Displayed(r.messages), conversation := r))
  }

  /** `App::new`: an empty session in Insert mode, restoring the last conversation when the
      configuration names one and it can be loaded. */
  function Initial(config: Config, env: Env): AppState
  {
    var s := AppState(config, Input.EditState([], 0, [], []), Insert, [], 0, false, [], [], NoOverlay, 0,
                      None, History.NewRecord(env.freshId, env.now), [], [], None, false, 24,
                      InitialPermissions, [], 0, [], [], true, false, [], [], [], 0, 0, true, [], [], false);
    match config.lastConversationId
    case None => s
    case Some(id) =>
      match env.load(id)
      case None => s
      case Some(r) => WithStatus(Restored(s, r), RestoredSession)
  }

  function SaturatingAdd(a: nat, b: nat): nat
  {
    if a + b > UsizeMax then UsizeMax else a + b
  }

  function SaturatingSub(a: nat, b: nat): nat
  {
    if a < b then 0 else a - b
  }

  function ScrollDownBy(s: AppState, n: nat): AppState
  {
    s.(scrollOffset := SaturatingAdd(s.scrollOffset, n))
  }

  /** `scroll_up` also stops following new output. */
  function ScrollUpBy(s: AppState, n: nat): AppState
  {
    s.(scrollOffset := SaturatingSub(s.scrollOffset, n), autoScroll := false)
  }

  /** `scroll_to_bottom`: the offset past everything, and following new output again. */
  function ScrollToBottom(s: AppState): AppState
  {
    s.(scrollOffset := UsizeMax, autoScroll := true)
  }

  function ScrollToTop(s: AppState): AppState
  {
    s.(scrollOffset := 0)
  }

  /** `visible_height`: the terminal height less six rows of chrome. */
  function VisibleHeight(s: AppState): nat
  {
    SaturatingSub(s.terminalHeight, 6)
  }

  /** `api_key_from_env`: the key of the configured provider; none for an unknown one. */
  function ApiKey(provider: string, env: Env): Option<string>
  {
    if provider == "anthropic" then env.anthropicKey
    else if provider == "openai" then env.openAiKey
    else None
  }

  /** The call a message or a retry spawns. */
  function RouteFor(provider: string, toolsEnabled: bool): Route
  {
    if provider == "openai" then OpenAiStream
    else if toolsEnabled && provider == "anthropic" then AnthropicTools
    else AnthropicStream
  }

  /** `save_and_track_conversation`: the conversation is written to disk (not modelled) and
      remembered as the last session. */
  function SaveAndTrack(s: AppState): AppState
  {
    s.(config := s.config.(lastConversationId := Some(s.conversation.id)))
  }

  // ---------------------------------------------------------------------------
  // Conversation operations
  // ---------------------------------------------------------------------------

  function NoKeyStatus(provider: string, configPath: string): string
  {
    NoKeyPrefix + (if provider == "openai" then OpenAiKeyVar else AnthropicKeyVar)
    + NoKeyConfig + configPath
  }

  /** `send_message`: the trimmed input is ignored when empty, run as a command when it
      starts with '/', refused without a key, and otherwise submitted. */
  function SendMessage(s: AppState, env: Env): AppState
  {
    var input := Trim(s.edit.input);
    if input == [] then s
    else if input[0] == '/' then SlashCommand(s, input, env)
    else match ApiKey(s.config.provider, env)
      case None => WithStatus(s, NoKeyStatus(s.config.provider, env.configPath))
      case Some(key) => Submit(s, input, key, env)
  }

  /** The successful part of `send_message`: the user entry goes to all three lists, an
      empty assistant entry to the displayed one, the input to the input history, the line
      is emptied, and the provider call is spawned with the new wire history. */
  function Submit(s: AppState, input: string, key: string, env: Env): AppState
  {
    var wire := s.apiMessages + [Provider.Message("user", Provider.Text(input))];
    ScrollToBottom(s.(
      messages := s.messages + [ChatMessage("user", input, env.now, [])] + [Placeholder(env.now)],
      conversation := History.Added(s.conversation, "user", input, env.now),
      apiMessages := wire,
      inputHistory := s.inputHistory + [input],
      historyIdx := None,
      edit := s.edit.(input := [], cursor := 0),
      streaming := true,
      streamBuffer := [],
      spawned := s.spawned + [Spawn(RouteFor(s.config.provider, s.toolsEnabled), key, s.config.model,
                                    s.config.systemPrompt, wire)]))
  }

  /** The removals a retry makes: the last displayed entry, and the last assistant entry of
      the wire history and of the persisted record. */
  function DropLastResponse(s: AppState): AppState
    requires s.messages != []
  {
    s.(messages := s.messages[..|s.messages| - 1],
       apiMessages := RemoveLastWhere(s.apiMessages, IsAssistantWire),
       conversation := s.conversation.(messages := RemoveLastWhere(s.conversation.messages, IsAssistantSaved)))
  }

  /** `retry_last` */
  function RetryLast(s: AppState, env: Env): AppState
  {
    if s.streaming then WithStatus(s, RetryWhileStreaming)
    else if s.messages == [] then WithStatus(s, NoMessagesToRetry)
    else if !IsAssistantChat(s.messages[|s.messages| - 1]) then WithStatus(s, NoAssistantToRetry)
    else
      var r := DropLastResponse(s);
      if r.apiMessages == [] then WithStatus(r, NoUserToRetry)
      else match ApiKey(r.config.provider, env)
        case None => WithStatus(r, NoApiKey)
        case Some(key) =>
          ScrollToBottom(r.(status := Some(Regenerating),
                            messages := r.messages + [Placeholder(env.now)],
                            streaming := true,
                            streamBuffer := [],
                            spawned := r.spawned + [Spawn(RouteFor(r.config.provider, r.toolsEnabled), key,
                                                          r.config.model, r.config.systemPrompt, r.apiMessages)]))
  }

  /** `edit_last_message` */
  function EditLastMessage(s: AppState): AppState
  {
    if s.streaming then WithStatus(s, EditWhileStreaming)
    else match LastWhere(s.messages, IsUserChat)
      case None => WithStatus(s, NoUserToEdit)
      case Some(k) =>
        var text := s.messages[k].content;
        ShowLine(s, text).(
           messages := DrainTurn(s.messages, IsUserChat, IsAssistantChat),
           apiMessages := DrainTurn(s.apiMessages, IsUserWire, IsAssistantWire),
           conversation := s.conversation.(messages := DrainTurn(s.conversation.messages, IsUserSaved, IsAssistantSaved)),
           inputMode := Insert,
           status := Some(EditingLast))
  }

  /** The record with the streamed text committed as an assistant message, if there is any. */
  function Commit(r: History.Record, buffer: string, now: int): History.Record
  {
    if buffer == [] then r else History.Added(r, "assistant", buffer, now)
  }

  /** `cancel_stream` */
  function CancelStream(s: AppState, env: Env): AppState
  {
    s.(streaming := false,
       conversation := Commit(s.conversation, s.streamBuffer, env.now),
       streamBuffer := [],
       status := Some(StreamCancelled))
  }

  /** The three lists emptied and a new conversation started (`:clear`). */
  function ResetConversation(s: AppState, env: Env): AppState
  {
    s.(messages := [], apiMessages := [], invocations := [],
       conversation := History.NewRecord(env.freshId, env.now))
  }

  /** `clear_conversation` and `/clear` */
  function ClearConversation(s: AppState, env: Env): AppState
  {
    WithStatus(ResetConversation(s, env), ConversationCleared)
  }

  /** `new_conversation`: a non-empty conversation is saved and tracked first. */
  function NewConversation(s: AppState, env: Env): AppState
  {
    var saved := if s.messages != [] then SaveAndTrack(s) else s;
    WithStatus(ResetConversation(saved, env).(scrollOffset := 0), NewConversationStatus)
  }

  // ---------------------------------------------------------------------------
  // What the provider call sends back
  // ---------------------------------------------------------------------------

  /** `ApiChunk`: the text is appended to the stream buffer, which the last assistant entry
      then shows. */
  function OnChunk(s: AppState, text: string): AppState
  {
    var buffer := s.streamBuffer + text;
    var c := s.(streamBuffer := buffer, messages := WithLastContent(s.messages, buffer));
    if s.autoScroll then ScrollToBottom(c) else c
  }

  /** `ApiDone`: streaming stops and the streamed text, if any, is committed and saved. */
  function OnDone(s: AppState, env: Env): AppState
  {
    var c := s.(streaming := false);
    if s.streamBuffer != [] then
      SaveAndTrack(c.(conversation := History.Added(s.conversation, "assistant", s.streamBuffer, env.now))).(streamBuffer := [])
    else c.(streamBuffer := [])
  }

  /** `ApiError`: streaming stops, the buffer is dropped, an empty assistant placeholder is
      removed, and the error is shown. */
  function OnError(s: AppState, err: string): AppState
  {
    var ms := s.messages;
    var dropped := ms != [] && IsAssistantChat(ms[|ms| - 1]) && ms[|ms| - 1].content == [];
    s.(streaming := false,
       streamBuffer := [],
       messages := if dropped then ms[..|ms| - 1] else ms,
       status := Some(ErrorPrefix + err))
  }

  /** `ToolUseRequest`: streaming stops and the response is handled. */
  function OnToolUse(s: AppState, body: string, env: Env): AppState
  {
    HandleToolUseResponse(s.(streaming := false), body, env)
  }

  /** `Resize`: the new terminal height. */
  function OnResize(s: AppState, height: nat): AppState
  {
    s.(terminalHeight := height)
  }

  /** `Tick`: the counter advances, wrapping at 2^64. */
  function OnTick(s: AppState): AppState
  {
    s.(tickCount := (s.tickCount + 1) % TickModulus)
  }

  /** `Mouse`: the wheel scrolls three rows. */
  function OnMouse(s: AppState, kind: Events.MouseKind): AppState
  {
    match kind
    case ScrollUp => ScrollUpBy(s, 3)
    case ScrollDown => ScrollDownBy(s, 3)
    case OtherMouse => s
  }

  // ---------------------------------------------------------------------------
  // Tool orchestration
  // ---------------------------------------------------------------------------

  /** `handle_tool_use_response`. The assistant's content blocks join the wire history even
      when they hold no tool call; with calls, the streamed text is kept on the last
      assistant entry and the calls are processed from the first. */
  function HandleToolUseResponse(s: AppState, body: string, env: Env): AppState
  {
    match env.parse(body)
    case Err(e) => WithStatus(s, ToolParseFailure + e)
    case Ok(response) =>
      var blocks := ContentBlocks(response).GetOr([]);
      var c := s.(apiMessages := s.apiMessages + [Provider.Message("assistant", Provider.Blocks(blocks))]);
      var calls := DecodeBlocks(blocks);
      if calls == [] then c
      else
        var shown := if s.streamBuffer != [] then WithLastContent(s.messages, s.streamBuffer) else s.messages;
        ProcessNext(c.(messages := shown, streamBuffer := [], pending := calls, confirmIdx := 0), env)
  }

  /** The permission the table gives the pending call at `i`. */
  function PermissionAt(s: AppState, i: nat): Permission
    requires i < |s.pending|
  {
    Lookup(s.permissions, s.pending[i].tool.Name())
  }

  /** `execute_tool_at_index`: runs the tool and records the
      result on the last assistant entry and in the invocation log; an output of more than
      ten lines is shown collapsed. */
  function ExecuteAt(s: AppState, i: nat, env: Env): (r: AppState)
    requires i < |s.pending|
    ensures r.pending == s.pending && r.confirmIdx == s.confirmIdx && r.permissions == s.permissions
    ensures r.executed == s.executed + [s.pending[i].tool]
    ensures var result := env.runTool(s.pending[i].tool);
      r.invocations == s.invocations + [ToolInvocation(s.pending[i].tool.Name(), Input.FormatToolArgs(s.pending[i].tool),
                                                       Some(result), |Lines(result.output)| > 10)]
    ensures r.overlay == s.overlay && r.apiMessages == s.apiMessages && r.spawned == s.spawned
    ensures r.streaming == s.streaming && r.panicked == s.panicked
  {
    var call := s.pending[i];
    var result := env.runTool(call.tool);
    var inv := ToolInvocation(call.tool.Name(), Input.FormatToolArgs(call.tool), Some(result), |Lines(result.output)| > 10);
    var c := s.(messages := Attach(s.messages, inv), invocations := s.invocations + [inv],
                executed := s.executed + [call.tool]);
    if c.autoScroll then ScrollToBottom(c) else c
  }

  /** A failed invocation recorded for a call that was not run. */
  function Refusal(call: ToolCall, message: string): ToolInvocation
  {
    ToolInvocation(call.tool.Name(), Input.FormatToolArgs(call.tool), Some(ErrResult(message)), false)
  }

  /** The `Deny` arm of `process_next_tool_call`: a failure in the log, a shorter one on
      the last assistant entry. */
  function DenyAt(s: AppState): (r: AppState)
    requires s.confirmIdx < |s.pending|
    ensures r.pending == s.pending && r.confirmIdx == s.confirmIdx && r.permissions == s.permissions
    ensures r.executed == s.executed
    ensures r.invocations == s.invocations + [Refusal(s.pending[s.confirmIdx], DeniedOnWire)]
    ensures r.overlay == s.overlay && r.apiMessages == s.apiMessages && r.spawned == s.spawned
    ensures r.streaming == s.streaming && r.panicked == s.panicked
  {
    var call := s.pending[s.confirmIdx];
    s.(invocations := s.invocations + [Refusal(call, DeniedOnWire)],
       messages := Attach(s.messages, Refusal(call, DeniedShort)))
  }

  /** One refusal from the confirmation prompt, on the last assistant entry and in the log. */
  function RejectAt(s: AppState): (r: AppState)
    requires s.confirmIdx < |s.pending|
    ensures r.pending == s.pending && r.confirmIdx == s.confirmIdx && r.permissions == s.permissions
  {
    var inv := Refusal(s.pending[s.confirmIdx], DeniedByUser);
    s.(messages := Attach(s.messages, inv), invocations := s.invocations + [inv])
  }

  function Advance(s: AppState): AppState
  {
    s.(confirmIdx := s.confirmIdx + 1)
  }

  /** One round of the loop of `process_next_tool_call` for a call that needs no prompt. */
  function StepCall(s: AppState, env: Env): (r: AppState)
    requires s.confirmIdx < |s.pending| && PermissionAt(s, s.confirmIdx) != AskFirst
    ensures r.pending == s.pending && r.confirmIdx == s.confirmIdx + 1 && r.permissions == s.permissions
  {
    if PermissionAt(s, s.confirmIdx) == AutoAllow then Advance(ExecuteAt(s, s.confirmIdx, env)) else Advance(DenyAt(s))
  }

  /** `process_next_tool_call`: runs or refuses calls from the confirmation index on, stops
      at the first one that needs asking with the prompt shown, and sends the results once
      every call is done. */
  function ProcessNext(s: AppState, env: Env): AppState
    decreases |s.pending| - s.confirmIdx
  {
    if s.confirmIdx >= |s.pending| then SendToolResults(s, env)
    else if PermissionAt(s, s.confirmIdx) == AskFirst then s.(overlay := ToolConfirm)
    else ProcessNext(StepCall(s, env), env)
  }

  /** The result `send_tool_results` reports for a tool name: that of the latest invocation
      in the log with that name, NoResult when it has none, and NotExecuted when
      there is no such invocation. */
  function ResultFor(invs: seq<ToolInvocation>, name: string): ToolResult
  {
    if invs == [] then ErrResult(NotExecuted)
    else if invs[|invs| - 1].toolName == name then invs[|invs| - 1].result.GetOr(ErrResult(NoResult))
    else ResultFor(invs[..|invs| - 1], name)
  }

  /** A `tool_result` content block. */
  function ResultBlock(call: ToolCall, r: ToolResult): Json.Value
  {
    Json.Object(map["type" := Json.Str("tool_result"), "tool_use_id" := Json.Str(call.id),
                    "content" := Json.Str(r.output), "is_error" := Json.Bool(!r.success)])
  }

  /** The result blocks of the pending calls, in call order. */
  function ResultBlocks(calls: seq<ToolCall>, invs: seq<ToolInvocation>): seq<Json.Value>
  {
    if calls == [] then []
    else
      var last := calls[|calls| - 1];
      ResultBlocks(calls[..|calls| - 1], invs) + [ResultBlock(last, ResultFor(invs, last.tool.Name()))]
  }

  /** `send_tool_results`: the results go to the wire history as one user message, the
      pending calls are cleared, streaming starts with a new assistant placeholder, and the
      follow-up call is spawned when there is a key. */
  function SendToolResults(s: AppState, env: Env): AppState
  {
    var blocks := ResultBlocks(s.pending, s.invocations);
    if blocks == [] then s
    else
      var wire := s.apiMessages + [Provider.Message("user", Provider.Blocks(blocks))];
      var c := s.(apiMessages := wire, pending := [], confirmIdx := 0, streaming := true, streamBuffer := [],
                  messages := s.messages + [Placeholder(env.now)]);
      match ApiKey(s.config.provider, env)
      case None => c
      case Some(key) =>
        c.(spawned := s.spawned + [Spawn(if s.toolsEnabled then AnthropicTools else AnthropicStream, key,
                                         s.config.model, s.config.systemPrompt, wire)])
  }

  /** The program aborts: indexing the pending calls out of range panics. */
  function Panic(s: AppState): AppState
  {
    s.(panicked := true)
  }

  /** Allowing the call at the confirmation index: it runs, and processing resumes after it. */
  function Allow(s: AppState, env: Env): AppState
  {
    if s.confirmIdx < |s.pending| then ProcessNext(Advance(ExecuteAt(s, s.confirmIdx, env)), env) else Panic(s)
  }

  /** Refusing the call at the confirmation index: a failure is recorded, the prompt is
      closed, and processing resumes after it. */
  function Refuse(s: AppState, env: Env): AppState
  {
    if s.confirmIdx < |s.pending| then ProcessNext(Advance(RejectAt(s).(overlay := NoOverlay)), env) else Panic(s)
  }

  /** The pending call's permission set to `p`, for good. */
  function Remember(s: AppState, p: Permission): AppState
    requires s.confirmIdx < |s.pending|
  {
    s.(permissions := s.permissions[s.pending[s.confirmIdx].tool.Name() := p])
  }

  /** `handle_tool_confirm_key`: 'y' or Enter allows once, 'a' always, 'n' or Esc refuses
      once, 'd' always; other keys do nothing. Only the key code is looked at. */
  function ConfirmKey(s: AppState, code: Events.KeyCode, env: Env): AppState
  {
    if code == Events.Char('y') || code == Events.Enter then Allow(s.(overlay := NoOverlay), env)
    else if code == Events.Char('a') then
      (if s.confirmIdx < |s.pending| then Allow(Remember(s, AutoAllow).(overlay := NoOverlay), env) else Panic(s))
    else if code == Events.Char('n') || code == Events.Esc then Refuse(s, env)
    else if code == Events.Char('d') then
      (if s.confirmIdx < |s.pending| then Refuse(Remember(s, Deny), env) else Panic(s))
    else s
  }

  // ---------------------------------------------------------------------------
  // Undo, input history, completion
  // ---------------------------------------------------------------------------

  /** `undo` with its status message. */
  function UndoLine(s: AppState): AppState
  {
    match Input.Undo(s.edit)
    case None => WithStatus(s, NothingToUndo)
    case Some(e) => WithStatus(s.(edit := e), "Undo")
  }

  /** `redo` with its status message. */
  function RedoLine(s: AppState): AppState
  {
    match Input.Redo(s.edit)
    case None => WithStatus(s, NothingToRedo)
    case Some(e) => WithStatus(s.(edit := e), "Redo")
  }

  /** The input line replaced by `text`, with the cursor at its end. */
  function ShowLine(s: AppState, text: string): AppState
  {
    s.(edit := s.edit.(input := text, cursor := |text|))
  }

  /** `history_prev`: one entry back, starting from the newest. */
  function HistoryPrev(s: AppState): AppState
    requires Valid(s)
  {
    if s.inputHistory == [] then s
    else
      var k := match s.historyIdx case Some(i) => SaturatingSub(i, 1) case None => |s.inputHistory| - 1;
      ShowLine(s.(historyIdx := Some(k)), s.inputHistory[k])
  }

  /** `history_next`: one entry forward; past the newest, back to an empty line. */
  function HistoryNext(s: AppState): AppState
    requires Valid(s)
  {
    match s.historyIdx
    case None => s
    case Some(i) =>
      if i + 1 < |s.inputHistory| then ShowLine(s.(historyIdx := Some(i + 1)), s.inputHistory[i + 1])
      else ShowLine(s.(historyIdx := None), [])
  }

  /** The input starts with one of the file commands, whose argument is completed as a path. */
  predicate PathCompletion(input: string)
  {
    exists i :: 0 <= i < |Input.PathCommands| && Input.PathCommands[i] <= input
  }

  /** `tab_complete` for a command name: a single match is completed with a space after it,
      several are listed in the status line. */
  function TabComplete(s: AppState): AppState
  {
    var input := s.edit.input;
    if !("/" <= input) || PathCompletion(input) then s
    else
      var m := Input.Matching(Input.Commands, input);
      if |m| == 1 then ShowLine(s, m[0] + " ")
      else if |m| > 1 then WithStatus(s, Join(m, "  "))
      else s
  }

  // ---------------------------------------------------------------------------
  // Search
  // ---------------------------------------------------------------------------

  function Contents(ms: seq<ChatMessage>): (r: seq<string>)
    ensures |r| == |ms| && forall i :: 0 <= i < |ms| ==> r[i] == ms[i].content
  {
    seq(|ms|, i requires 0 <= i < |ms| => ms[i].content)
  }

  function MatchStatus(query: string, k: nat, n: nat): string
  {
    "/" + query + ": match " + NatToString(k) + "/" + NatToString(n)
  }

  /** `scroll_to_match`: an estimate of four rows per message. */
  function ScrollToMatch(s: AppState, k: nat): AppState
  {
    if k < |s.searchMatches| then s.(scrollOffset := s.searchMatches[k] * 4) else s
  }

  /** `execute_search`: the messages whose lowered text contains the lowered query. */
  function ExecuteSearch(s: AppState, env: Env): AppState
  {
    var c := s.(searchMatches := [], searchMatchIdx := 0);
    if s.searchQuery == [] then c
    else
      var m := Input.MatchPositions(Contents(s.messages), s.searchQuery, env.lower);
      if m == [] then WithStatus(c, PatternNotFound + s.searchQuery)
      else WithStatus(ScrollToMatch(c.(searchMatches := m), 0), MatchStatus(s.searchQuery, 1, |m|))
  }

  /** `next_search_match` */
  function NextSearchMatch(s: AppState): AppState
  {
    var n := |s.searchMatches|;
    if n == 0 then s
    else
      var k := Input.NextMatch(s.searchMatchIdx, n);
      WithStatus(ScrollToMatch(s.(searchMatchIdx := k), k), MatchStatus(s.searchQuery, k + 1, n))
  }

  /** `prev_search_match` */
  function PrevSearchMatch(s: AppState): AppState
  {
    var n := |s.searchMatches|;
    if n == 0 then s
    else
      var k := Input.PrevMatch(s.searchMatchIdx, n);
      WithStatus(ScrollToMatch(s.(searchMatchIdx := k), k), MatchStatus(s.searchQuery, k + 1, n))
  }

  // ---------------------------------------------------------------------------
  // Code blocks
  // ---------------------------------------------------------------------------

  /** The blocks of message `i`, tagged with its index. */
  function Tagged(i: nat, bs: seq<(string, string)>): (r: seq<Input.CodeBlock>)
    ensures |r| == |bs| && forall k :: 0 <= k < |bs| ==> r[k] == Input.CodeBlock(i, bs[k].0, bs[k].1)
  {
    seq(|bs|, k requires 0 <= k < |bs| => Input.CodeBlock(i, bs[k].0, bs[k].1))
  }

  /** The fenced blocks of the assistant entries, message by message. */
  function CodeBlocksOf(ms: seq<ChatMessage>): seq<Input.CodeBlock>
  {
    if ms == [] then []
    else
      var n := |ms| - 1;
      CodeBlocksOf(ms[..n]) + (if IsAssistantChat(ms[n]) then Tagged(n, Input.Blocks(ms[n].content)) else [])
  }

  /** `extract_code_blocks` */
  function ExtractCodeBlocks(s: AppState): AppState
  {
    s.(codeBlocks := CodeBlocksOf(s.messages))
  }

  function LangLabel(lang: string): string
  {
    if lang == [] then "text" else lang
  }

  function FirstLine(s: string): string
  {
    var ls := Lines(s);
    if ls == [] then [] else ls[0]
  }

  /** The status line listing the blocks after Ctrl-y. */
  function CodeSummary(bs: seq<Input.CodeBlock>): string
  {
    CodeBlocksPrefix + Join(seq(|bs|, i requires 0 <= i < |bs| =>
      "[" + NatToString(i + 1) + "] " + LangLabel(bs[i].lang) + " " + TakeChars(FirstLine(bs[i].code), 30)), " | ")
  }

  /** The status line after yanking block `idx` (counted from 0): a preview of its first
      40 chars, or why nothing was copied. */
  function YankStatus(bs: seq<Input.CodeBlock>, idx: nat, clipboardOpen: bool): string
  {
    if idx < |bs| then
      if clipboardOpen then
        YankedBlock + NatToString(idx + 1) + " [" + LangLabel(bs[idx].lang) + "]: "
        + TakeChars(bs[idx].code, 40) + (if Utf8Len(bs[idx].code) > 40 then "..." else "")
      else ClipboardFailure
    else NoCodeBlock + NatToString(idx + 1)
  }

  /** `yank_code_block`: copies the block to the clipboard (not modelled) and shows a
      preview; visual mode ends either way. */
  function YankCodeBlock(s: AppState, idx: nat, env: Env): AppState
  {
    s.(status := Some(YankStatus(s.codeBlocks, idx, env.clipboardOpen)), visualMode := false)
  }

  /** The status line after sending block `idx` (counted from 0) to the editor. */
  function SendStatus(bs: seq<Input.CodeBlock>, idx: nat, nvim: Option<Result<(), string>>): string
  {
    if idx < |bs| then
      match nvim
      case None => NoNeovim
      case Some(Ok(_)) => SentBlock + NatToString(idx + 1) + " [" + LangLabel(bs[idx].lang) + ToNeovim
      case Some(Err(e)) => NeovimError + e
    else NoCodeBlock + NatToString(idx + 1)
  }

  /** `send_code_to_nvim` */
  function SendCodeToNvim(s: AppState, idx: nat, env: Env): AppState
  {
    WithStatus(s, SendStatus(s.codeBlocks, idx, env.nvim))
  }

  /** `yank_last_response`: copies the last assistant entry (not modelled). */
  function YankLastResponse(s: AppState, env: Env): AppState
  {
    if LastWhere(s.messages, IsAssistantChat).Some? && env.clipboardOpen then
      WithStatus(s, ResponseCopied)
    else s
  }

  /** `paste_clipboard`: the clipboard text inserted at the cursor as one undoable edit. */
  function PasteClipboard(s: AppState, env: Env): AppState
    requires Valid(s)
  {
    if env.clipboardOpen && env.clipboardText.Some? then s.(edit := Input.Paste(s.edit, env.clipboardText.value))
    else s
  }

  // ---------------------------------------------------------------------------
  // Overlays
  // ---------------------------------------------------------------------------

  /** `load_history_list` */
  function LoadHistoryList(s: AppState, env: Env): AppState
  {
    s.(historyList := env.saved, overlayScroll := 0)
  }

  function OverlayScrollDown(s: AppState): AppState
  {
    s.(overlayScroll := SaturatingAdd(s.overlayScroll, 1))
  }

  function OverlayScrollUp(s: AppState): AppState
  {
    s.(overlayScroll := SaturatingSub(s.overlayScroll, 1))
  }

  /** `overlay_select`: in the history list, loads the selected conversation (a failed load
      is ignored) and closes the list; any other overlay just closes. */
  function OverlaySelect(s: AppState, env: Env): AppState
  {
    if s.overlay == HistoryOverlay then
      if s.overlayScroll < |s.historyList| then
        var loaded := match env.load(s.historyList[s.overlayScroll].id)
          case Some(r) => Restored(s, r)
          case None => s;
        loaded.(overlay := NoOverlay, overlayScroll := 0)
      else s
    else s.(overlay := NoOverlay)
  }

  // ---------------------------------------------------------------------------
  // Slash commands
  // ---------------------------------------------------------------------------

  /** `splitn(2, ' ')`: the command name and what follows the first space. */
  function SplitCommand(cmd: string): (string, Option<string>)
  {
    match FindChar(cmd, ' ')
    case None => (cmd, None)
    case Some(k) => (cmd[..k], Some(cmd[k + 1..]))
  }

  /** The arms of `handle_slash_command`'s `match`: each modelled command with its short
      form, the commands whose effects are file, process, clipboard, editor or float handling
      (`/temp`, `/nvim`, `/file`, `/context`, `/paste`, `/resume`, `/diff`, `/export`,
      `/run`), and any other word. */
  datatype SlashName =
    | ClearCmd | NewCmd | ModelCmd | ModelsCmd | ProviderCmd | SystemCmd | HistoryCmd | HelpCmd
    | SaveCmd | ToolsCmd | ThemeCmd | RetryCmd | EditCmd | UndoCmd | RedoCmd | QuitCmd
    | UnmodelledCmd | UnknownCmd

  /** The arm the command word selects, with the program's aliases. */
  function SlashNameOf(name: string): SlashName
  {
    if name == "/clear" || name == "/c" then ClearCmd
    else if name == "/new" || name == "/n" then NewCmd
    else if name == "/model" || name == "/m" then ModelCmd
    else if name == "/models" then ModelsCmd
    else if name == "/provider" || name == "/p" then ProviderCmd
    else if name == "/system" || name == "/s" then SystemCmd
    else if name == "/history" || name == "/h" then HistoryCmd
    else if name == "/help" || name == "/?" then HelpCmd
    else if name == "/save" then SaveCmd
    else if name == "/tools" then ToolsCmd
    else if name == "/theme" then ThemeCmd
    else if name == "/retry" then RetryCmd
    else if name == "/edit" then EditCmd
    else if name == "/undo" then UndoCmd
    else if name == "/redo" then RedoCmd
    else if name == "/quit" || name == "/q" then QuitCmd
    else if name in UnmodelledCommands then UnmodelledCmd
    else UnknownCmd
  }

  const UnmodelledCommands: seq<string> :=
    ["/temp", "/t", "/nvim", "/file", "/f", "/context", "/ctx", "/paste",
     "/resume", "/r", "/diff", "/d", "/export", "/run", "/!"]

  const ModelAliases: string :=
    "Model aliases: sonnet/s -> claude-sonnet-4-20250514, opus/o -> claude-opus-4-20250514, "
    + "haiku/h -> claude-haiku-4-5-20251001, gpt4 -> gpt-4o, gpt4m -> gpt-4o-mini"

  const ThemeNames: seq<string> := ["tokyo-night", "catppuccin", "gruvbox", "dracula"]

  /** The theme names joined with ", ", as the unknown-theme message lists them. */
  const ThemeList: string := "tokyo-night, catppuccin, gruvbox, dracula"

  /** The tools in the order `/tools` lists them. */
  const ListedTools: seq<string> := ["read_file", "write_file", "edit_file", "list_files", "search_files", "execute"]

  function PermissionLines(perms: map<string, Permission>): seq<string>
  {
    seq(|ListedTools|, i requires 0 <= i < |ListedTools| =>
      "  " + ListedTools[i] + ": " + PermissionLabel(Lookup(perms, ListedTools[i])))
  }

  function OnOff(b: bool): string
  {
    if b then "on" else "off"
  }

  /** `/tools`: switches tool use on or off, or lists the permissions. */
  function ToolsCommand(s: AppState, arg: Option<string>): AppState
  {
    s.(toolsEnabled := ToolsSwitch(s.toolsEnabled, arg), status := Some(ToolsReply(s, arg)))
  }

  /** Tool use after `/tools`: "on" and "off" set it, anything else leaves it. */
  function ToolsSwitch(enabled: bool, arg: Option<string>): bool
  {
    if arg == Some("on") then true else if arg == Some("off") then false else enabled
  }

  function ToolsReply(s: AppState, arg: Option<string>): string
  {
    match arg
    case Some(a) =>
      if a == "on" then ToolsEnabledStatus else if a == "off" then ToolsDisabledStatus else ToolsUsage
    case None => ToolsPrefix + OnOff(s.toolsEnabled) + "\n" + Join(PermissionLines(s.permissions), "\n")
  }

  /** `/theme`: a known theme name, trimmed, becomes the theme; an unknown one is reported
      with the list of known ones. */
  function ThemeCommand(s: AppState, arg: Option<string>): AppState
  {
    match arg
    case None => WithStatus(s, CurrentTheme + s.config.themeName)
    case Some(a) =>
      var theme := Trim(a);
      var known := theme in ThemeNames;
      s.(config := s.config.(themeName := if known then theme else s.config.themeName),
         status := Some(if known then ThemeSet + theme
                        else UnknownTheme + theme + AvailableThemes + ThemeList))
  }

  /** The input line emptied without an undo entry (`input.clear()`). */
  function ClearLine(s: AppState): AppState
  {
    s.(edit := s.edit.(input := [], cursor := 0))
  }

  /** The synchronous part of `/retry`: it drops the last response without re-sending. */
  function RetrySync(s: AppState): AppState
  {
    if s.streaming then WithStatus(s, RetryWhileStreaming)
    else if s.messages == [] || !IsAssistantChat(s.messages[|s.messages| - 1]) then
      WithStatus(s, NoAssistantToRetry)
    else WithStatus(DropLastResponse(s), RemovedResponse)
  }

  /** `handle_slash_command`. `/retry`, `/edit`, `/undo` and `/redo` empty the line first
      and return; the other commands empty it afterwards. */
  function SlashCommand(s: AppState, cmd: string, env: Env): AppState
  {
    var (name, arg) := SplitCommand(cmd);
    var c := SlashNameOf(name);
    if c == RetryCmd then RetrySync(ClearLine(s))
    else if c == EditCmd then EditLastMessage(ClearLine(s))
    else if c == UndoCmd then UndoLine(ClearLine(s))
    else if c == RedoCmd then RedoLine(ClearLine(s))
    else if c == UnmodelledCmd then s
    else ClearLine(CommandEffect(s, c, name, arg, env))
  }

  /** The effect of a slash command that ends by emptying the line. */
  function CommandEffect(s: AppState, c: SlashName, name: string, arg: Option<string>, env: Env): AppState
  {
    match c
    case ClearCmd => ClearConversation(s, env)
    case NewCmd => NewConversation(s, env)
    case ModelCmd =>
      (match arg
       case Some(m) =>
         var resolved := Input.ResolveModelAlias(m);
         WithStatus(s.(config := s.config.(model := resolved)), ModelSet + resolved)
       case None => WithStatus(s, CurrentModel + s.config.model))
    case ModelsCmd => WithStatus(s, ModelAliases)
    case ProviderCmd =>
      (match arg
       case Some(p) => WithStatus(s.(config := s.config.(provider := p)), ProviderSet + p)
       case None => WithStatus(s, CurrentProvider + s.config.provider))
    case SystemCmd =>
      (match arg
       case Some(p) => WithStatus(s.(config := s.config.(systemPrompt := Some(p))), SystemPromptUpdated)
       case None => WithStatus(s, s.config.systemPrompt.GetOr(NoSystemPrompt)))
    case HistoryCmd => LoadHistoryList(s.(overlay := HistoryOverlay), env)
    case HelpCmd => s.(overlay := Help)
    case SaveCmd => WithStatus(s, ConfigSaved)
    case ToolsCmd => ToolsCommand(s, arg)
    case ThemeCmd => ThemeCommand(s, arg)
    case QuitCmd => s.(shouldQuit := true)
    case _ => WithStatus(s, UnknownCommand + name)
  }

  // ---------------------------------------------------------------------------
  // Command-mode (':') commands
  // ---------------------------------------------------------------------------

  function ToggleTools(s: AppState): AppState
  {
    WithStatus(s.(toolsEnabled := !s.toolsEnabled), ToolsPrefix + OnOff(!s.toolsEnabled))
  }

  function BoolText(b: bool): string
  {
    if b then "true" else "false"
  }

  /** The colon commands `execute_command` tells apart. */
  datatype ColonName = ColonQuit | ColonSave | ColonClear | ColonNew | ColonHelp | ColonHistory
                     | ColonTools | ColonSet | ColonModel | ColonUnknown

  /** Which colon command `cmd` is: the whole command compared after trimming, then the
      `set ` and `model ` prefixes of the untrimmed text; `wq` quits like `q`. */
  function ColonNameOf(cmd: string): (r: ColonName)
    ensures r == ColonSet ==> "set " <= cmd
    ensures r == ColonModel ==> "model " <= cmd
  {
    var c := Trim(cmd);
    if c == "q" || c == "quit" then ColonQuit
    else if c == "w" || c == "save" then ColonSave
    else if c == "wq" then ColonQuit
    else if c == "clear" || c == "c" then ColonClear
    else if c == "new" || c == "n" then ColonNew
    else if c == "help" || c == "h" then ColonHelp
    else if c == "history" then ColonHistory
    else if c == "tools" then ColonTools
    else if "set " <= cmd then ColonSet
    else if "model " <= cmd then ColonModel
    else ColonUnknown
  }

  /** `execute_command` */
  function ExecuteCommand(s: AppState, cmd: string, env: Env): AppState
  {
    match ColonNameOf(cmd)
    case ColonQuit => s.(shouldQuit := true)
    case ColonSave => WithStatus(s, ConfigSaved)
    case ColonClear => ResetConversation(s, env)
    case ColonNew => NewConversation(s, env)
    case ColonHelp => s.(overlay := Help)
    case ColonHistory => LoadHistoryList(s.(overlay := HistoryOverlay), env)
    case ColonTools => ToggleTools(s)
    case ColonSet => SetCommand(s, cmd[4..])
    case ColonModel =>
      var m := Trim(cmd[6..]);
      WithStatus(s.(config := s.config.(model := m)), ModelPrefix + m)
    case ColonUnknown => WithStatus(s, UnknownColonCommand + cmd)
  }

  /** The settings `handle_set_command` knows. */
  datatype SettingName = SetModel | SetTemperature | SetProvider | SetVim | SetTools | SetUnknown

  function SettingNameOf(k: string): SettingName
  {
    if k == "model" then SetModel
    else if k == "temp" || k == "temperature" then SetTemperature
    else if k == "provider" then SetProvider
    else if k == "vim" then SetVim
    else if k == "tools" then SetTools
    else SetUnknown
  }

  /** `key=value` split at the first `=`; without one, all of it is the key. */
  function SplitSetting(rest: string): (string, Option<string>)
  {
    match FindChar(rest, '=')
    case None => (rest, None)
    case Some(k) => (rest[..k], Some(rest[k + 1..]))
  }

  /** `handle_set_command`: `key=value` settings. The temperature is a float and is not
      modelled, so setting it leaves the state as it is. */
  function SetCommand(s: AppState, rest: string): AppState
  {
    var (key, value) := SplitSetting(rest);
    match SettingNameOf(Trim(key))
    case SetModel =>
      (match value
       case Some(v) => WithStatus(s.(config := s.config.(model := Trim(v))), ModelPrefix + Trim(v))
       case None => s)
    case SetTemperature => s
    case SetProvider =>
      (match value
       case Some(v) => WithStatus(s.(config := s.config.(provider := Trim(v))), ProviderPrefix + Trim(v))
       case None => s)
    case SetVim =>
      WithStatus(s.(config := s.config.(vimMode := !s.config.vimMode)), VimModePrefix + BoolText(!s.config.vimMode))
    case SetTools => ToggleTools(s)
    case SetUnknown => WithStatus(s, UnknownSetting + key)
  }
}
