/** Every round of `App::run` keeps `ChatModel.Valid`: the editor's invariant, the
    input-history position, the confirmation index, the tick counter and the search position
    stay in range whatever event arrives. The round of the event loop requires `Valid`, so
    this is what lets `run` go on round after round. */
module Invariant {
  import opened Wrappers
  import opened Text
  import Events
  import Input
  import Json
  import Provider
  import opened Tools
  import opened ChatModel
  import ChatProperties
  import Keybinds
  import EventLoop
  import KeyProperties

  /** The fields `Valid` looks at, together. */
  function Guarded(s: AppState): (Input.EditState, Option<nat>, seq<string>, seq<ToolCall>, nat, nat, seq<nat>, nat)
  {
    (s.edit, s.historyIdx, s.inputHistory, s.pending, s.confirmIdx, s.tickCount, s.searchMatches, s.searchMatchIdx)
  }

  /** The fields `Valid` looks at are all left as they were. */
  predicate Untouched(s: AppState, r: AppState)
  {
    Guarded(r) == Guarded(s)
  }

  // ---------------------------------------------------------------------------
  // The tool-call walk
  // ---------------------------------------------------------------------------

  /** Running or refusing one call touches none of the fields `Valid` looks at. */
  lemma ExecuteAtUntouched(s: AppState, i: nat, env: Env)
    requires i < |s.pending|
    ensures Untouched(s, ExecuteAt(s, i, env))
  {
    var call := s.pending[i];
    var result := env.runTool(call.tool);
    var inv := ToolInvocation(call.tool.Name(), Input.FormatToolArgs(call.tool), Some(result), |Lines(result.output)| > 10);
    var c := s.(messages := Attach(s.messages, inv), invocations := s.invocations + [inv],
                executed := s.executed + [call.tool]);
    assert Untouched(s, c);
  }

  lemma DenyAtUntouched(s: AppState)
    requires s.confirmIdx < |s.pending|
    ensures Untouched(s, DenyAt(s))
  {
  }

  /** The invariant carries over to a state that agrees on the fields it looks at. */
  lemma UntouchedKeepsValid(s: AppState, r: AppState)
    requires Valid(s) && Untouched(s, r)
    ensures Valid(r)
  {
  }

  /** Moving past a call that is still pending keeps the invariant. */
  lemma AdvanceKeepsValid(s: AppState)
    requires Valid(s) && s.confirmIdx < |s.pending|
    ensures Valid(Advance(s))
  {
  }

  lemma StepCallKeepsValid(s: AppState, env: Env)
    requires Valid(s) && s.confirmIdx < |s.pending| && PermissionAt(s, s.confirmIdx) != AskFirst
    ensures Valid(StepCall(s, env))
  {
    var e := if PermissionAt(s, s.confirmIdx) == AutoAllow then ExecuteAt(s, s.confirmIdx, env) else DenyAt(s);
    if PermissionAt(s, s.confirmIdx) == AutoAllow {
      ExecuteAtUntouched(s, s.confirmIdx, env);
    } else {
      DenyAtUntouched(s);
    }
    UntouchedKeepsValid(s, e);
    AdvanceKeepsValid(e);
    assert StepCall(s, env) == Advance(e);
  }

  /** Sending the results either leaves the state as it was or clears the pending calls and
      the confirmation index together. */
  lemma SendResultsKeepsValid(s: AppState, env: Env)
    requires Valid(s)
    ensures Valid(SendToolResults(s, env))
  {
    ChatProperties.ResultBlocksLength(s.pending, s.invocations);
    match ApiKey(s.config.provider, env)
    case None =>
    case Some(_) =>
  }

  /** The walk over the pending calls keeps the invariant: the confirmation index only moves
      up to the number of calls, and back to zero when the results go out. */
  lemma {:induction false} ProcessNextKeepsValid(s: AppState, env: Env)
    requires Valid(s)
    ensures Valid(ProcessNext(s, env))
    decreases |s.pending| - s.confirmIdx
  {
    if s.confirmIdx >= |s.pending| {
      SendResultsKeepsValid(s, env);
    } else if PermissionAt(s, s.confirmIdx) == AskFirst {
    } else {
      StepCallKeepsValid(s, env);
      ProcessNextKeepsValid(StepCall(s, env), env);
    }
  }

  /** The confirmation keys keep the invariant; past the end of the calls they only panic. */
  lemma AllowKeepsValid(s: AppState, env: Env)
    requires Valid(s)
    ensures Valid(Allow(s, env))
  {
    if s.confirmIdx < |s.pending| {
      ExecuteAtUntouched(s, s.confirmIdx, env);
      var x := Advance(ExecuteAt(s, s.confirmIdx, env));
      ProcessNextKeepsValid(x, env);
    }
  }

  lemma RefuseKeepsValid(s: AppState, env: Env)
    requires Valid(s)
    ensures Valid(Refuse(s, env))
  {
    if s.confirmIdx < |s.pending| {
      var x := Advance(RejectAt(s).(overlay := NoOverlay));
      assert Untouched(s, x.(confirmIdx := s.confirmIdx));
      ProcessNextKeepsValid(x, env);
    }
  }

  lemma ConfirmYesKeepsValid(s: AppState, code: Events.KeyCode, env: Env)
    requires Valid(s) && (code == Events.Char('y') || code == Events.Enter)
    ensures Valid(ConfirmKey(s, code, env))
  {
    ChatProperties.ConfirmYes(s, env);
    AllowKeepsValid(s.(overlay := NoOverlay), env);
  }

  lemma ConfirmAlwaysKeepsValid(s: AppState, env: Env)
    requires Valid(s)
    ensures Valid(ConfirmKey(s, Events.Char('a'), env))
  {
    if s.confirmIdx < |s.pending| {
      ChatProperties.ConfirmAlways(s, env);
      AllowKeepsValid(Remember(s, AutoAllow).(overlay := NoOverlay), env);
    } else {
      UntouchedKeepsValid(s, Panic(s));
    }
  }

  lemma ConfirmNoKeepsValid(s: AppState, code: Events.KeyCode, env: Env)
    requires Valid(s) && (code == Events.Char('n') || code == Events.Esc)
    ensures Valid(ConfirmKey(s, code, env))
  {
    ChatProperties.ConfirmNo(s, env);
    RefuseKeepsValid(s, env);
  }

  lemma ConfirmNeverKeepsValid(s: AppState, env: Env)
    requires Valid(s)
    ensures Valid(ConfirmKey(s, Events.Char('d'), env))
  {
    if s.confirmIdx < |s.pending| {
      ChatProperties.ConfirmNever(s, env);
      UntouchedKeepsValid(s, Remember(s, Deny));
      RefuseKeepsValid(Remember(s, Deny), env);
    } else {
      UntouchedKeepsValid(s, Panic(s));
    }
  }

  /** Whatever key answers the prompt, the invariant holds afterwards. */
  lemma ConfirmKeepsValid(s: AppState, code: Events.KeyCode, env: Env)
    requires Valid(s)
    ensures Valid(ConfirmKey(s, code, env))
  {
    if code == Events.Char('y') || code == Events.Enter {
      ConfirmYesKeepsValid(s, code, env);
    } else if code == Events.Char('a') {
      ConfirmAlwaysKeepsValid(s, env);
    } else if code == Events.Char('n') || code == Events.Esc {
      ConfirmNoKeepsValid(s, code, env);
    } else if code == Events.Char('d') {
      ConfirmNeverKeepsValid(s, env);
    } else {
      ChatProperties.ConfirmOtherKeys(s, code, env);
    }
  }

  /** Starting the walk from the first call keeps the invariant. */
  lemma WalkStartKeepsValid(s: AppState, response: Json.Value)
    requires Valid(s)
    ensures Valid(ChatProperties.WalkStart(s, response))
  {
  }

  /** A tool-use response keeps the invariant, whether it fails to parse, carries no call,
      or starts the walk from the first of its calls. */
  lemma ToolUseKeepsValid(s: AppState, body: string, env: Env)
    requires Valid(s)
    ensures Valid(OnToolUse(s, body, env))
  {
    var c := s.(streaming := false);
    UntouchedKeepsValid(s, c);
    match env.parse(body)
    case Err(_) =>
      ChatProperties.ToolResponseUnparsed(c, body, env);
      UntouchedKeepsValid(c, HandleToolUseResponse(c, body, env));
    case Ok(response) =>
      if DecodeBlocks(ChatProperties.ResponseBlocks(response)) == [] {
        ChatProperties.ToolResponseWithoutCalls(c, body, env);
        UntouchedKeepsValid(c, HandleToolUseResponse(c, body, env));
      } else {
        var w := ChatProperties.WalkStart(c, response);
        WalkStartKeepsValid(c, response);
        ProcessNextKeepsValid(w, env);
        ChatProperties.ToolResponseStartsWalk(c, body, env);
      }
  }

  // ---------------------------------------------------------------------------
  // The input line
  // ---------------------------------------------------------------------------

  /** An editor state that keeps its own invariant keeps the application's. */
  lemma EditedKeepsValid(s: AppState, e: Input.EditState)
    requires Valid(s) && Input.EditValid(e)
    ensures Valid(s.(edit := e))
  {
  }

  /** Replacing the line with the cursor at its end leaves the undo stacks valid. */
  lemma ShowLineKeepsValid(s: AppState, text: string)
    requires Valid(s)
    ensures Valid(ShowLine(s, text))
  {
  }

  lemma UndoKeepsValid(s: AppState)
    requires Valid(s)
    ensures Valid(UndoLine(s))
  {
    match Input.Undo(s.edit)
    case None =>
      UntouchedKeepsValid(s, UndoLine(s));
    case Some(e) =>
      Input.EditValidPreserved(s.edit);
      EditedKeepsValid(s, e);
      UntouchedKeepsValid(s.(edit := e), UndoLine(s));
  }

  lemma RedoKeepsValid(s: AppState)
    requires Valid(s)
    ensures Valid(RedoLine(s))
  {
    match Input.Redo(s.edit)
    case None =>
      UntouchedKeepsValid(s, RedoLine(s));
    case Some(e) =>
      Input.EditValidPreserved(s.edit);
      EditedKeepsValid(s, e);
      UntouchedKeepsValid(s.(edit := e), RedoLine(s));
  }

  /** Setting the status line touches none of the fields `Valid` looks at. */
  lemma StatusUntouched(s: AppState, text: string)
    ensures Untouched(s, WithStatus(s, text))
  {
  }

  /** Scrolling to a match touches none of the fields `Valid` looks at. */
  lemma ScrollToMatchUntouched(s: AppState, k: nat)
    ensures Untouched(s, ScrollToMatch(s, k))
  {
  }

  lemma HistoryPrevKeepsValid(s: AppState)
    requires Valid(s)
    ensures Valid(HistoryPrev(s))
  {
  }

  lemma HistoryNextKeepsValid(s: AppState)
    requires Valid(s)
    ensures Valid(HistoryNext(s))
  {
  }

  lemma SearchKeepsValid(s: AppState, env: Env)
    requires Valid(s)
    ensures Valid(ExecuteSearch(s, env))
  {
    var c := s.(searchMatches := [], searchMatchIdx := 0);
    assert Valid(c);
    if s.searchQuery != [] {
      var m := Input.MatchPositions(Contents(s.messages), s.searchQuery, env.lower);
      if m == [] {
        StatusUntouched(c, PatternNotFound + s.searchQuery);
        UntouchedKeepsValid(c, WithStatus(c, PatternNotFound + s.searchQuery));
      } else {
        var d := c.(searchMatches := m);
        assert Valid(d);
        var e := ScrollToMatch(d, 0);
        ScrollToMatchUntouched(d, 0);
        UntouchedKeepsValid(d, e);
        StatusUntouched(e, MatchStatus(s.searchQuery, 1, |m|));
        UntouchedKeepsValid(e, WithStatus(e, MatchStatus(s.searchQuery, 1, |m|)));
      }
    }
  }

  /** Stepping forward or back keeps the position on a match. */
  lemma NextMatchKeepsValid(s: AppState)
    requires Valid(s)
    ensures Valid(NextSearchMatch(s))
  {
  }

  lemma PrevMatchKeepsValid(s: AppState)
    requires Valid(s)
    ensures Valid(PrevSearchMatch(s))
  {
  }

  // ---------------------------------------------------------------------------
  // Conversation operations and the provider's events
  // ---------------------------------------------------------------------------

  lemma SlashKeepsValid(s: AppState, cmd: string, env: Env)
    requires Valid(s)
    ensures Valid(SlashCommand(s, cmd, env))
  {
    var (name, arg) := SplitCommand(cmd);
    var c := SlashNameOf(name);
    ClearLineKeepsValid(s);
    if c == RetryCmd {
      RetrySyncUntouched(ClearLine(s));
      UntouchedKeepsValid(ClearLine(s), RetrySync(ClearLine(s)));
    } else if c == EditCmd {
      EditKeepsValid(ClearLine(s));
    } else if c == UndoCmd {
      UndoKeepsValid(ClearLine(s));
    } else if c == RedoCmd {
      RedoKeepsValid(ClearLine(s));
    } else if c != UnmodelledCmd {
      CommandEffectUntouched(s, c, name, arg, env);
      UntouchedKeepsValid(s, CommandEffect(s, c, name, arg, env));
      ClearLineKeepsValid(CommandEffect(s, c, name, arg, env));
    }
  }

  /** Emptying the line leaves the undo stacks valid. */
  lemma ClearLineKeepsValid(s: AppState)
    requires Valid(s)
    ensures Valid(ClearLine(s))
  {
    ShowLineKeepsValid(s, []);
    assert ClearLine(s) == ShowLine(s, []);
  }

  lemma RetrySyncUntouched(s: AppState)
    ensures Untouched(s, RetrySync(s))
  {
    if !s.streaming && s.messages != [] && IsAssistantChat(s.messages[|s.messages| - 1]) {
      assert Untouched(s, DropLastResponse(s));
    } else {
      assert RetrySync(s) == s.(status := RetrySync(s).status);
    }
  }

  /** The slash commands that set a configuration field. */
  lemma ConfigCommandUntouched(s: AppState, c: SlashName, name: string, arg: Option<string>, env: Env)
    requires c == ModelCmd || c == ProviderCmd || c == SystemCmd || c == ToolsCmd || c == ThemeCmd
    ensures Untouched(s, CommandEffect(s, c, name, arg, env))
  {
  }

  /** The slash commands that clear the conversation or open an overlay. */
  lemma ViewCommandUntouched(s: AppState, c: SlashName, name: string, arg: Option<string>, env: Env)
    requires c == ClearCmd || c == HistoryCmd || c == HelpCmd
    ensures Untouched(s, CommandEffect(s, c, name, arg, env))
  {
  }

  /** The slash commands that quit or only report. */
  lemma ReportCommandUntouched(s: AppState, c: SlashName, name: string, arg: Option<string>, env: Env)
    requires c == ModelsCmd || c == SaveCmd || c == QuitCmd
    ensures Untouched(s, CommandEffect(s, c, name, arg, env))
  {
    var r := CommandEffect(s, c, name, arg, env);
    assert r == WithStatus(s, ModelAliases) || r == WithStatus(s, ConfigSaved) || r == s.(shouldQuit := true);
  }

  /** The names `CommandEffect` does not know report an unknown command. */
  lemma OtherCommandUntouched(s: AppState, c: SlashName, name: string, arg: Option<string>, env: Env)
    requires c == UnknownCmd || c == RetryCmd || c == EditCmd || c == UndoCmd || c == RedoCmd || c == UnmodelledCmd
    ensures Untouched(s, CommandEffect(s, c, name, arg, env))
  {
    assert CommandEffect(s, c, name, arg, env) == WithStatus(s, UnknownCommand + name);
  }

  /** The slash commands that end by emptying the line touch nothing `Valid` looks at. */
  lemma CommandEffectUntouched(s: AppState, c: SlashName, name: string, arg: Option<string>, env: Env)
    ensures Untouched(s, CommandEffect(s, c, name, arg, env))
  {
    match c
    case NewCmd => NewConversationUntouched(s, env);
    case ModelCmd | ProviderCmd | SystemCmd | ToolsCmd | ThemeCmd =>
      ConfigCommandUntouched(s, c, name, arg, env);
    case ClearCmd | HistoryCmd | HelpCmd => ViewCommandUntouched(s, c, name, arg, env);
    case ModelsCmd | SaveCmd | QuitCmd => ReportCommandUntouched(s, c, name, arg, env);
    case UnknownCmd | RetryCmd | EditCmd | UndoCmd | RedoCmd | UnmodelledCmd =>
      OtherCommandUntouched(s, c, name, arg, env);
  }

  lemma SendKeepsValid(s: AppState, env: Env)
    requires Valid(s)
    ensures Valid(SendMessage(s, env))
  {
    var input := Trim(s.edit.input);
    if input != [] {
      if input[0] == '/' {
        SlashKeepsValid(s, input, env);
      } else {
        match ApiKey(s.config.provider, env)
        case None =>
          UntouchedKeepsValid(s, WithStatus(s, NoKeyStatus(s.config.provider, env.configPath)));
        case Some(key) =>
          SubmitKeepsValid(s, input, key, env);
      }
    }
  }

  /** Submitting empties the line without an undo entry and clears the history position. */
  lemma SubmitKeepsValid(s: AppState, input: string, key: string, env: Env)
    requires Valid(s)
    ensures Valid(Submit(s, input, key, env))
  {
  }

  lemma RetryResendUntouched(s: AppState, env: Env)
    requires !s.streaming && s.messages != [] && IsAssistantChat(s.messages[|s.messages| - 1])
    ensures Untouched(s, RetryLast(s, env))
  {
    var r := DropLastResponse(s);
    assert Untouched(s, r);
    if r.apiMessages != [] {
      match ApiKey(r.config.provider, env)
      case None =>
      case Some(_) =>
    }
  }

  lemma RetryUntouched(s: AppState, env: Env)
    ensures Untouched(s, RetryLast(s, env))
  {
    if s.streaming || s.messages == [] || !IsAssistantChat(s.messages[|s.messages| - 1]) {
      ChatProperties.RetryRefused(s, env);
    } else {
      RetryResendUntouched(s, env);
    }
  }

  /** Editing the last message shows it on the line with the cursor at its end. */
  lemma EditKeepsValid(s: AppState)
    requires Valid(s)
    ensures Valid(EditLastMessage(s))
  {
    if !s.streaming && LastWhere(s.messages, IsUserChat).Some? {
      ShowLineKeepsValid(s, s.messages[LastWhere(s.messages, IsUserChat).value].content);
    }
  }

  lemma CancelUntouched(s: AppState, env: Env)
    ensures Untouched(s, CancelStream(s, env))
  {
  }

  lemma ChunkUntouched(s: AppState, text: string)
    ensures Untouched(s, OnChunk(s, text))
  {
  }

  lemma DoneUntouched(s: AppState, env: Env)
    ensures Untouched(s, OnDone(s, env))
  {
    if s.streamBuffer != [] {
    } else {
    }
  }

  lemma ErrorUntouched(s: AppState, err: string)
    ensures Untouched(s, OnError(s, err))
  {
  }

  lemma MouseUntouched(s: AppState, kind: Events.MouseKind)
    ensures Untouched(s, OnMouse(s, kind))
  {
  }

  /** The tick counter wraps within `u64`. */
  lemma TickKeepsValid(s: AppState)
    requires Valid(s)
    ensures Valid(OnTick(s))
  {
  }

  lemma ResizeUntouched(s: AppState, height: nat)
    ensures Untouched(s, OnResize(s, height))
  {
  }

  // ---------------------------------------------------------------------------
  // Commands, overlays and code blocks
  // ---------------------------------------------------------------------------

  lemma NewConversationUntouched(s: AppState, env: Env)
    ensures Untouched(s, NewConversation(s, env))
  {
    if s.messages != [] {
    } else {
    }
  }

  lemma SetCommandUntouched(s: AppState, rest: string)
    ensures Untouched(s, SetCommand(s, rest))
  {
    var c := SettingNameOf(Trim(SplitSetting(rest).0));
    if c == SetModel || c == SetProvider {
    } else {
    }
  }

  lemma ExecuteCommandUntouched(s: AppState, cmd: string, env: Env)
    ensures Untouched(s, ExecuteCommand(s, cmd, env))
  {
    var c := ColonNameOf(cmd);
    if c == ColonNew {
      NewConversationUntouched(s, env);
    } else if c == ColonSet {
      SetCommandUntouched(s, cmd[4..]);
    }
  }

  lemma OverlaySelectUntouched(s: AppState, env: Env)
    ensures Untouched(s, OverlaySelect(s, env))
  {
    if s.overlay == HistoryOverlay && s.overlayScroll < |s.historyList| {
      var loaded := env.load(s.historyList[s.overlayScroll].id);
      if loaded.Some? {
        RestoredUntouched(s, loaded.value);
      }
    }
  }

  /** Opening a saved conversation touches none of the fields `Valid` looks at. */
  lemma RestoredUntouched(s: AppState, r: History.Record)
    ensures Untouched(s, Restored(s, r))
  {
  }

  /** `App::new` starts `run` in a state that satisfies the invariant, whether or not it
      restored the last conversation. */
  lemma InitialValid(config: Config, env: Env)
    ensures Valid(Initial(config, env))
  {
    var s := AppState(config, Input.EditState([], 0, [], []), Insert, [], 0, false, [], [], NoOverlay, 0,
                      None, History.NewRecord(env.freshId, env.now), [], [], None, false, 24,
                      InitialPermissions, [], 0, [], [], true, false, [], [], [], 0, 0, true, [], [], false);
    assert Valid(s);
    if config.lastConversationId.Some? && env.load(config.lastConversationId.value).Some? {
      var r := env.load(config.lastConversationId.value).value;
      RestoredUntouched(s, r);
      StatusUntouched(Restored(s, r), RestoredSession);
      UntouchedKeepsValid(s, WithStatus(Restored(s, r), RestoredSession));
    }
  }

  lemma ListCodeBlocksUntouched(s: AppState)
    ensures Untouched(s, Keybinds.ListCodeBlocks(s))
  {
  }

  lemma SendLastCodeBlockUntouched(s: AppState, env: Env)
    ensures Untouched(s, Keybinds.SendLastCodeBlock(s, env))
  {
    if ExtractCodeBlocks(s).codeBlocks != [] {
    } else {
    }
  }

  lemma YankCodeBlockUntouched(s: AppState, idx: nat, env: Env)
    ensures Untouched(s, YankCodeBlock(s, idx, env))
  {
  }

  lemma YankLastResponseUntouched(s: AppState, env: Env)
    ensures Untouched(s, YankLastResponse(s, env))
  {
  }

  lemma PasteKeepsValid(s: AppState, env: Env)
    requires Valid(s)
    ensures Valid(PasteClipboard(s, env))
  {
    if env.clipboardOpen && env.clipboardText.Some? {
      Input.EditsKeepValid(s.edit, ' ', env.clipboardText.value);
    }
  }

  lemma TabCompleteKeepsValid(s: AppState)
    requires Valid(s)
    ensures Valid(TabComplete(s))
  {
    var input := s.edit.input;
    if "/" <= input && !PathCompletion(input) {
      var m := Input.Matching(Input.Commands, input);
      if |m| == 1 {
        ShowLineKeepsValid(s, m[0] + " ");
      }
    }
  }

  // ---------------------------------------------------------------------------
  // Key handlers and the round of the event loop
  // ---------------------------------------------------------------------------

  /** Any valid editor state may replace the one of a valid state. */
  lemma EditedAll(s: AppState)
    requires Valid(s)
    ensures forall x {:trigger Keybinds.Edited(s, x)} :: Input.EditValid(x) ==> Valid(Keybinds.Edited(s, x))
  {
  }

  /** Entering a mode with a new valid editor state keeps the invariant. */
  lemma EnterWithKeepsValid(s: AppState, m: InputMode, e: Input.EditState)
    requires Valid(s) && Input.EditValid(e)
    ensures Valid(s.(inputMode := m, edit := e))
  {
    EditedKeepsValid(s, e);
    UntouchedKeepsValid(s.(edit := e), s.(inputMode := m, edit := e));
  }

  lemma NormalModeCharKeepsValid(s: AppState, ch: char, env: Env)
    requires Valid(s) && KeyProperties.ModeChar(ch)
    ensures Valid(Keybinds.NormalKey(s, Events.KeyEvent(Events.NoMods, Events.Char(ch)), env).0)
  {
    KeyProperties.NormalModeChars(s, ch, env);
    Input.EditsKeepValid(s.edit, ' ', []);
    Input.EditsKeepValid(Input.CursorEnd(s.edit), '\n', []);
    UntouchedKeepsValid(s, s.(inputMode := Insert));
    EnterWithKeepsValid(s, Insert, Input.CursorRight(s.edit));
    EnterWithKeepsValid(s, Insert, Input.InsertChar(Input.CursorEnd(s.edit), '\n'));
    UntouchedKeepsValid(s, s.(inputMode := Command, commandInput := []));
    UntouchedKeepsValid(s, s.(inputMode := Search, searchQuery := []));
    UntouchedKeepsValid(s, s.(overlay := Help));
  }

  lemma NormalOtherCharKeepsValid(s: AppState, ch: char, env: Env)
    requires Valid(s) && !KeyProperties.ModeChar(ch) && !KeyProperties.ScrollChar(ch) && !KeyProperties.MoveChar(ch) && !KeyProperties.DeleteChar(ch)
    ensures Valid(Keybinds.NormalKey(s, Events.KeyEvent(Events.NoMods, Events.Char(ch)), env).0)
  {
    KeyProperties.NormalOtherChars(s, ch, env);
    PasteKeepsValid(s, env);
    NextMatchKeepsValid(s);
    YankLastResponseUntouched(s, env);
    UntouchedKeepsValid(s, YankLastResponse(s, env));
    if '1' <= ch {
      YankCodeBlockUntouched(s, ch as int - '1' as int, env);
      UntouchedKeepsValid(s, YankCodeBlock(s, ch as int - '1' as int, env));
    }
  }

  lemma NormalCharKeepsValid(s: AppState, ch: char, env: Env)
    requires Valid(s)
    ensures Valid(Keybinds.NormalKey(s, Events.KeyEvent(Events.NoMods, Events.Char(ch)), env).0)
  {
    if KeyProperties.ModeChar(ch) {
      NormalModeCharKeepsValid(s, ch, env);
    } else if KeyProperties.ScrollChar(ch) {
      KeyProperties.NormalScrollChars(s, ch, env);
      ScrollKeepsValid(s, 1);
    } else if KeyProperties.MoveChar(ch) {
      if ch == 'h' || ch == 'l' {
        KeyProperties.NormalMoveChars(s, env);
      } else if ch == 'w' {
        KeyProperties.NormalWordForward(s, env);
      } else if ch == 'b' {
        KeyProperties.NormalWordBack(s, env);
      } else {
        KeyProperties.NormalMoveHome(s, env);
      }
      Input.EditsKeepValid(s.edit, ' ', []);
      EditedAll(s);
    } else if KeyProperties.DeleteChar(ch) {
      KeyProperties.NormalDeleteChars(s, ch, env);
      Input.EditsKeepValid(s.edit, ' ', []);
      EditedAll(s);
    } else {
      NormalOtherCharKeepsValid(s, ch, env);
    }
  }

  lemma NormalShiftKeepsValid(s: AppState, key: Events.KeyEvent, env: Env)
    requires Valid(s) && key.mods == Events.Shift
    ensures Valid(Keybinds.NormalKey(s, key, env).0)
  {
    KeyProperties.NormalShiftKeys(s, key, env);
    Input.EditsKeepValid(s.edit, ' ', []);
    EnterWithKeepsValid(s, Insert, Input.CursorEnd(s.edit));
    EnterWithKeepsValid(s, Insert, Input.CursorHome(s.edit));
    EditedKeepsValid(s, Input.CursorEnd(s.edit));
    ScrollKeepsValid(s, 0);
    PrevMatchKeepsValid(s);
  }

  lemma ScrollKeepsValid(s: AppState, n: nat)
    requires Valid(s)
    ensures Valid(ScrollDownBy(s, n)) && Valid(ScrollUpBy(s, n)) && Valid(ScrollToTop(s)) && Valid(ScrollToBottom(s))
  {
    UntouchedKeepsValid(s, ScrollDownBy(s, n));
    UntouchedKeepsValid(s, ScrollUpBy(s, n));
    UntouchedKeepsValid(s, ScrollToTop(s));
    UntouchedKeepsValid(s, ScrollToBottom(s));
  }

  lemma NewConversationKeepsValid(s: AppState, env: Env)
    requires Valid(s)
    ensures Valid(NewConversation(s, env))
  {
    NewConversationUntouched(s, env);
    UntouchedKeepsValid(s, NewConversation(s, env));
  }

  lemma ListCodeBlocksKeepsValid(s: AppState)
    requires Valid(s)
    ensures Valid(Keybinds.ListCodeBlocks(s))
  {
    ListCodeBlocksUntouched(s);
    UntouchedKeepsValid(s, Keybinds.ListCodeBlocks(s));
  }

  lemma SendLastCodeBlockKeepsValid(s: AppState, env: Env)
    requires Valid(s)
    ensures Valid(Keybinds.SendLastCodeBlock(s, env))
  {
    SendLastCodeBlockUntouched(s, env);
    UntouchedKeepsValid(s, Keybinds.SendLastCodeBlock(s, env));
  }

  lemma NormalControlKeepsValid(s: AppState, key: Events.KeyEvent, env: Env)
    requires Valid(s) && key.mods == Events.Control
    ensures Valid(Keybinds.NormalKey(s, key, env).0)
  {
    KeyProperties.NormalControlKeys(s, key, env);
    ScrollKeepsValid(s, VisibleHeight(s) / 2);
    NewConversationKeepsValid(s, env);
    ListCodeBlocksKeepsValid(s);
    SendLastCodeBlockKeepsValid(s, env);
  }

  lemma NormalArrowKeepsValid(s: AppState, key: Events.KeyEvent, env: Env)
    requires Valid(s) && key.mods == Events.NoMods && !key.code.Char?
    ensures Valid(Keybinds.NormalKey(s, key, env).0)
  {
    KeyProperties.NormalPlainArrows(s, key, env);
    Input.EditsKeepValid(s.edit, ' ', []);
    EditedKeepsValid(s, Input.CursorLeft(s.edit));
    EditedKeepsValid(s, Input.CursorRight(s.edit));
    ScrollKeepsValid(s, 1);
  }

  lemma NormalKeyKeepsValid(s: AppState, key: Events.KeyEvent, env: Env)
    requires Valid(s)
    ensures Valid(Keybinds.NormalKey(s, key, env).0)
  {
    if key.mods == Events.NoMods {
      if key.code.Char? {
        NormalCharKeepsValid(s, key.code.c, env);
      } else {
        NormalArrowKeepsValid(s, key, env);
      }
    } else if key.mods == Events.Shift {
      NormalShiftKeepsValid(s, key, env);
    } else if key.mods == Events.Control {
      NormalControlKeepsValid(s, key, env);
    } else {
      KeyProperties.NormalModifiedKeys(s, key, env);
    }
  }

  lemma InsertKeyKeepsValid(s: AppState, key: Events.KeyEvent)
    requires Valid(s)
    ensures Valid(Keybinds.InsertKey(s, key).0)
  {
    Input.EditsKeepValid(s.edit, if key.code.Char? then key.code.c else '\n', []);
    EditedAll(s);
    HistoryPrevKeepsValid(s);
    HistoryNextKeepsValid(s);
    if key.mods == Events.NoMods {
      KeyProperties.InsertPlainKeys(s, key);
      TabCompleteKeepsValid(s);
    } else if key.mods == Events.Control {
      KeyProperties.InsertControlKeys(s, key);
    } else {
      KeyProperties.InsertModifiedKeys(s, key);
    }
  }

  lemma CommandKeyKeepsValid(s: AppState, code: Events.KeyCode, env: Env)
    requires Valid(s)
    ensures Valid(Keybinds.CommandKey(s, code, env).0)
  {
    if code == Events.Enter {
      var c := s.(inputMode := Normal, commandInput := []);
      ExecuteCommandUntouched(c, s.commandInput, env);
      UntouchedKeepsValid(c, ExecuteCommand(c, s.commandInput, env));
    }
  }

  lemma SearchKeyKeepsValid(s: AppState, code: Events.KeyCode, env: Env)
    requires Valid(s)
    ensures Valid(Keybinds.SearchKey(s, code, env).0)
  {
    if code == Events.Enter {
      SearchKeepsValid(s.(inputMode := Normal), env);
    }
  }

  lemma OverlayKeyKeepsValid(s: AppState, code: Events.KeyCode, env: Env)
    requires Valid(s)
    ensures Valid(Keybinds.OverlayKey(s, code, env).0)
  {
    var r := Keybinds.OverlayKey(s, code, env).0;
    OverlaySelectUntouched(s, env);
    assert r == s.(overlay := NoOverlay) || r == OverlayScrollDown(s) || r == OverlayScrollUp(s)
        || r == OverlaySelect(s, env) || r == s;
    UntouchedKeepsValid(s, r);
  }

  lemma HandleKeyKeepsValid(s: AppState, key: Events.KeyEvent, env: Env)
    requires Valid(s)
    ensures Valid(Keybinds.HandleKey(s, key, env).0)
  {
    if key != Events.KeyEvent(Events.Control, Events.Char('c')) && key != Events.KeyEvent(Events.Control, Events.Char('q')) {
      if s.overlay != NoOverlay {
        OverlayKeyKeepsValid(s, key.code, env);
      } else {
        match s.inputMode
        case Normal => NormalKeyKeepsValid(s, key, env);
        case Insert => InsertKeyKeepsValid(s, key);
        case Command => CommandKeyKeepsValid(s, key.code, env);
        case Search => SearchKeyKeepsValid(s, key.code, env);
      }
    }
  }

  /** The action `run` carries out after `handle_key` keeps the invariant. */
  lemma ActionKeepsValid(t: AppState, action: Keybinds.KeyAction, env: Env)
    requires Valid(t)
    ensures Valid(match action
                  case Quit => if t.messages != [] then SaveAndTrack(t) else t
                  case SendMessage => SendMessage(t, env)
                  case CancelStream => CancelStream(t, env)
                  case RetryMessage => RetryLast(t, env)
                  case EditLastMessage => EditLastMessage(t)
                  case _ => t)
  {
    match action
    case Quit => UntouchedKeepsValid(t, SaveAndTrack(t));
    case SendMessage => SendKeepsValid(t, env);
    case CancelStream =>
      CancelUntouched(t, env);
      UntouchedKeepsValid(t, CancelStream(t, env));
    case RetryMessage =>
      RetryUntouched(t, env);
      UntouchedKeepsValid(t, RetryLast(t, env));
    case EditLastMessage => EditKeepsValid(t);
    case _ =>
  }

  /** A key press keeps the invariant, whichever handler takes it. */
  lemma OnKeyKeepsValid(s: AppState, key: Events.KeyEvent, env: Env)
    requires Valid(s)
    ensures Valid(EventLoop.OnKey(s, key, env).0)
  {
    var c := s.(status := None);
    UntouchedKeepsValid(s, c);
    if c.overlay == ToolConfirm {
      ConfirmKeepsValid(c, key.code, env);
    } else {
      HandleKeyKeepsValid(c, key, env);
      var (t, action) := Keybinds.HandleKey(c, key, env);
      ActionKeepsValid(t, action, env);
    }
  }

  /** Every round of `run` keeps the invariant, so `Step` may be applied again to the state
      it returns. */
  lemma StepKeepsValid(s: AppState, ev: Events.Event, env: Env)
    requires Valid(s)
    ensures Valid(EventLoop.Step(s, ev, env).0)
  {
    match ev
    case Key(k) => OnKeyKeepsValid(s, k, env);
    case ApiChunk(text) =>
      ChunkUntouched(s, text);
      UntouchedKeepsValid(s, OnChunk(s, text));
    case ApiDone =>
      DoneUntouched(s, env);
      UntouchedKeepsValid(s, OnDone(s, env));
    case ApiError(err) =>
      ErrorUntouched(s, err);
      UntouchedKeepsValid(s, OnError(s, err));
    case ToolUseRequest(body) => ToolUseKeepsValid(s, body, env);
    case Resize(_, h) =>
      ResizeUntouched(s, h);
      UntouchedKeepsValid(s, OnResize(s, h));
    case Tick => TickKeepsValid(s);
    case Mouse(kind) =>
      MouseUntouched(s, kind);
      UntouchedKeepsValid(s, OnMouse(s, kind));
  }
}
