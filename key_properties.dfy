/** What `handle_key` and one round of `run` promise: the global keys first, an open overlay
    before the input mode, the Enter key of each mode, and the tool prompt taking every key. */
module KeyProperties {
  import opened Wrappers
  import opened Text
  import Events
  import Input
  import ChatModel
  import opened Keybinds
  import EventLoop

  /** Ctrl+c cancels a running stream and otherwise quits; Ctrl+q quits; neither changes the
      state, whatever the mode or overlay. */
  lemma GlobalKeys(s: ChatModel.AppState, env: ChatModel.Env)
    requires ChatModel.Valid(s)
    ensures HandleKey(s, Events.KeyEvent(Events.Control, Events.Char('c')), env) == (s, if s.streaming then CancelStream else Quit)
    ensures HandleKey(s, Events.KeyEvent(Events.Control, Events.Char('q')), env) == (s, Quit)
  {
  }

  /** Not a global key. */
  predicate Ordinary(key: Events.KeyEvent)
  {
    key != Events.KeyEvent(Events.Control, Events.Char('c')) && key != Events.KeyEvent(Events.Control, Events.Char('q'))
  }

  /** An open overlay takes the key before the input mode does. */
  lemma OverlayFirst(s: ChatModel.AppState, key: Events.KeyEvent, env: ChatModel.Env)
    requires ChatModel.Valid(s) && Ordinary(key) && s.overlay != ChatModel.NoOverlay
    ensures HandleKey(s, key, env) == OverlayKey(s, key.code, env)
  {
  }

  /** Command mode sees the key code only. */
  lemma CommandModeDispatch(s: ChatModel.AppState, key: Events.KeyEvent, env: ChatModel.Env)
    requires ChatModel.Valid(s) && Ordinary(key) && s.overlay == ChatModel.NoOverlay && s.inputMode == ChatModel.Command
    ensures HandleKey(s, key, env) == CommandKey(s, key.code, env)
  {
  }

  /** Insert mode sees the whole key. */
  lemma InsertModeDispatch(s: ChatModel.AppState, key: Events.KeyEvent, env: ChatModel.Env)
    requires ChatModel.Valid(s) && Ordinary(key) && s.overlay == ChatModel.NoOverlay && s.inputMode == ChatModel.Insert
    ensures HandleKey(s, key, env) == InsertKey(s, key)
  {
  }

  /** Normal mode sees the whole key. */
  lemma NormalModeDispatch(s: ChatModel.AppState, key: Events.KeyEvent, env: ChatModel.Env)
    requires ChatModel.Valid(s) && Ordinary(key) && s.overlay == ChatModel.NoOverlay && s.inputMode == ChatModel.Normal
    ensures HandleKey(s, key, env) == NormalKey(s, key, env)
  {
  }

  /** Search mode sees the key code only. */
  lemma SearchModeDispatch(s: ChatModel.AppState, key: Events.KeyEvent, env: ChatModel.Env)
    requires ChatModel.Valid(s) && Ordinary(key) && s.overlay == ChatModel.NoOverlay && s.inputMode == ChatModel.Search
    ensures HandleKey(s, key, env) == SearchKey(s, key.code, env)
  {
  }

  // ---------------------------------------------------------------------------
  // The keys of each handler
  // ---------------------------------------------------------------------------

  /** Esc and 'q' close an overlay; keys it does not use change nothing. */
  lemma OverlayCloses(s: ChatModel.AppState, code: Events.KeyCode, env: ChatModel.Env)
    ensures code == Events.Esc || code == Events.Char('q') ==> OverlayKey(s, code, env) == (s.(overlay := ChatModel.NoOverlay), Consumed)
    ensures code !in [Events.Esc, Events.Char('q'), Events.Char('j'), Events.Down, Events.Char('k'), Events.Up, Events.Enter]
            ==> OverlayKey(s, code, env) == (s, NoAction)
  {
  }

  /** Enter runs the command typed so far, back in Normal mode with the line emptied. */
  lemma CommandEnterRuns(s: ChatModel.AppState, env: ChatModel.Env)
    ensures CommandKey(s, Events.Enter, env).0
         == ChatModel.ExecuteCommand(s.(inputMode := ChatModel.Normal, commandInput := []), s.commandInput, env)
  {
  }

  /** A typed character that is erased again leaves the command line as it was; erasing the
      last character goes back to Normal mode, and Esc abandons the line. */
  lemma CommandTypeErase(s: ChatModel.AppState, ch: char, env: ChatModel.Env)
    ensures var typed := CommandKey(s, Events.Char(ch), env).0;
      && typed.commandInput == s.commandInput + [ch]
      && (s.commandInput != [] ==> CommandKey(typed, Events.Backspace, env).0 == s)
      && (s.commandInput == [] ==> CommandKey(typed, Events.Backspace, env).0 == s.(inputMode := ChatModel.Normal))
      && CommandKey(s, Events.Esc, env).0 == s.(inputMode := ChatModel.Normal, commandInput := [])
  {
    assert Pop(s.commandInput + [ch]) == s.commandInput;
  }

  /** Enter searches for the query typed so far, back in Normal mode. */
  lemma SearchEnterRuns(s: ChatModel.AppState, env: ChatModel.Env)
    ensures SearchKey(s, Events.Enter, env).0 == ChatModel.ExecuteSearch(s.(inputMode := ChatModel.Normal), env)
  {
  }

  /** The search line behaves like the command line. */
  lemma SearchTypeErase(s: ChatModel.AppState, ch: char, env: ChatModel.Env)
    ensures var typed := SearchKey(s, Events.Char(ch), env).0;
      && typed.searchQuery == s.searchQuery + [ch]
      && (s.searchQuery != [] ==> SearchKey(typed, Events.Backspace, env).0 == s)
      && (s.searchQuery == [] ==> SearchKey(typed, Events.Backspace, env).0 == s.(inputMode := ChatModel.Normal))
      && SearchKey(s, Events.Esc, env).0 == s.(inputMode := ChatModel.Normal, searchQuery := [])
  {
    assert Pop(s.searchQuery + [ch]) == s.searchQuery;
  }

  /** j and Down move the overlay one line down, saturating at the top of `usize`; k and Up move
      it one line up, stopping at 0. */
  lemma OverlayScrolls(s: ChatModel.AppState, env: ChatModel.Env)
    ensures var down := if s.overlayScroll < ChatModel.UsizeMax then s.overlayScroll + 1 else ChatModel.UsizeMax;
      && OverlayKey(s, Events.Char('j'), env) == (s.(overlayScroll := down), Consumed)
      && OverlayKey(s, Events.Down, env) == (s.(overlayScroll := down), Consumed)
    ensures var up := if s.overlayScroll == 0 then 0 else s.overlayScroll - 1;
      && OverlayKey(s, Events.Char('k'), env) == (s.(overlayScroll := up), Consumed)
      && OverlayKey(s, Events.Up, env) == (s.(overlayScroll := up), Consumed)
  {
  }

  /** Enter in the history list loads the conversation under the selection and closes the
      list with the selection reset; a load that fails only closes the list, and a selection
      past the end of the list does nothing. Enter in any other overlay closes it. */
  lemma OverlayEnterSelects(s: ChatModel.AppState, env: ChatModel.Env)
    ensures var r := OverlayKey(s, Events.Enter, env);
      && r.1 == Consumed
      && (s.overlay != ChatModel.HistoryOverlay ==> r.0 == s.(overlay := ChatModel.NoOverlay))
      && (s.overlay == ChatModel.HistoryOverlay && s.overlayScroll >= |s.historyList| ==> r.0 == s)
    ensures s.overlay == ChatModel.HistoryOverlay && s.overlayScroll < |s.historyList| ==>
      var id := s.historyList[s.overlayScroll].id;
      && (env.load(id).Some? ==>
            OverlayKey(s, Events.Enter, env).0
            == ChatModel.Restored(s, env.load(id).value).(overlay := ChatModel.NoOverlay, overlayScroll := 0))
      && (env.load(id).None? ==>
            OverlayKey(s, Events.Enter, env).0 == s.(overlay := ChatModel.NoOverlay, overlayScroll := 0))
  {
  }

  /** The command and search lines use Esc, Enter, Backspace and chars; every other key
      changes nothing and leaves no action. */
  lemma LineModesIgnoreOtherKeys(s: ChatModel.AppState, code: Events.KeyCode, env: ChatModel.Env)
    requires !code.Char? && code != Events.Esc && code != Events.Enter && code != Events.Backspace
    ensures CommandKey(s, code, env) == (s, NoAction)
    ensures SearchKey(s, code, env) == (s, NoAction)
  {
  }

  // ---------------------------------------------------------------------------
  // The keymaps, one modifier set at a time
  // ---------------------------------------------------------------------------

  /** Insert mode without modifiers: Esc leaves, Enter sends a line that is not blank, the
      editing and cursor keys edit, Up and Down walk the input history, Tab completes a
      command, and a char is typed at the cursor. */
  lemma InsertPlainKeys(s: ChatModel.AppState, key: Events.KeyEvent)
    requires ChatModel.Valid(s) && key.mods == Events.NoMods
    ensures InsertKey(s, key) ==
      var e := s.edit;
      match key.code
      case Esc => (s.(inputMode := ChatModel.Normal), Consumed)
      case Enter => (s, if Trim(e.input) == [] then NoAction else SendMessage)
      case Backspace => (Edited(s, Input.DeleteCharBefore(e)), Consumed)
      case Delete => (Edited(s, Input.DeleteCharAt(e)), Consumed)
      case Left => (Edited(s, Input.CursorLeft(e)), Consumed)
      case Right => (Edited(s, Input.CursorRight(e)), Consumed)
      case Home => (Edited(s, Input.CursorHome(e)), Consumed)
      case End => (Edited(s, Input.CursorEnd(e)), Consumed)
      case Up => (ChatModel.HistoryPrev(s), Consumed)
      case Down => (ChatModel.HistoryNext(s), Consumed)
      case Tab => (ChatModel.TabComplete(s), Consumed)
      case Char(ch) => (Edited(s, Input.InsertChar(e, ch)), Consumed)
      case OtherKey => (s, NoAction)
  {
  }

  /** Insert mode with Ctrl: h, w and u delete, a and e go to the start and end of the line,
      p and n walk the input history; anything else is not handled. */
  lemma InsertControlKeys(s: ChatModel.AppState, key: Events.KeyEvent)
    requires ChatModel.Valid(s) && key.mods == Events.Control
    ensures InsertKey(s, key) ==
      var e := s.edit;
      match key.code
      case Char('h') => (Edited(s, Input.DeleteCharBefore(e)), Consumed)
      case Char('w') => (Edited(s, Input.DeleteWordBefore(e)), Consumed)
      case Char('u') => (Edited(s, Input.DeleteToStart(e)), Consumed)
      case Char('a') => (Edited(s, Input.CursorHome(e)), Consumed)
      case Char('e') => (Edited(s, Input.CursorEnd(e)), Consumed)
      case Char('p') => (ChatModel.HistoryPrev(s), Consumed)
      case Char('n') => (ChatModel.HistoryNext(s), Consumed)
      case _ => (s, NoAction)
  {
  }

  /** Insert mode with any other modifier set: Shift+Enter and Alt+Enter insert a line
      break, a shifted char is typed, and nothing else is handled. */
  lemma InsertModifiedKeys(s: ChatModel.AppState, key: Events.KeyEvent)
    requires ChatModel.Valid(s) && key.mods != Events.NoMods && key.mods != Events.Control
    ensures InsertKey(s, key) ==
      if (key.mods == Events.Shift || key.mods == Events.Alt) && key.code == Events.Enter then
        (Edited(s, Input.InsertChar(s.edit, '\n')), Consumed)
      else if key.mods == Events.Shift && key.code.Char? then (Edited(s, Input.InsertChar(s.edit, key.code.c)), Consumed)
      else (s, NoAction)
  {
  }

  /** Normal mode without modifiers, the keys that are not chars: the arrows scroll and
      move the cursor, and the rest change nothing. */
  lemma NormalPlainArrows(s: ChatModel.AppState, key: Events.KeyEvent, env: ChatModel.Env)
    requires ChatModel.Valid(s) && key.mods == Events.NoMods && !key.code.Char?
    ensures NormalKey(s, key, env) ==
      match key.code
      case Down => (ChatModel.ScrollDownBy(s, 1), Consumed)
      case Up => (ChatModel.ScrollUpBy(s, 1), Consumed)
      case Left => (Edited(s, Input.CursorLeft(s.edit)), Consumed)
      case Right => (Edited(s, Input.CursorRight(s.edit)), Consumed)
      case _ => (s, NoAction)
  {
  }

  /** The vi keys that change the input mode or open an overlay. */
  predicate ModeChar(ch: char)
  {
    ch == 'i' || ch == 'a' || ch == 'o' || ch == ':' || ch == '/' || ch == '?'
  }

  /** The vi keys that scroll the conversation. */
  predicate ScrollChar(ch: char)
  {
    ch == 'j' || ch == 'k' || ch == 'g'
  }

  /** The vi keys that move the cursor. */
  predicate MoveChar(ch: char)
  {
    ch == 'h' || ch == 'l' || ch == 'w' || ch == 'b' || ch == '0'
  }

  /** The vi keys that delete from the input line. */
  predicate DeleteChar(ch: char)
  {
    ch == 'x' || ch == 'd'
  }

  /** Normal mode without modifiers, the mode keys: 'i', 'a' and 'o' enter Insert mode
      (after the cursor, and on a new line after the cursor's line), ':' and '/' open the
      command and search lines empty, '?' opens the help overlay. */
  lemma NormalModeChars(s: ChatModel.AppState, ch: char, env: ChatModel.Env)
    requires ChatModel.Valid(s) && ModeChar(ch)
    ensures NormalKey(s, Events.KeyEvent(Events.NoMods, Events.Char(ch)), env) ==
      var e := s.edit;
      if ch == 'i' then (s.(inputMode := ChatModel.Insert), Consumed)
      else if ch == 'a' then (s.(inputMode := ChatModel.Insert, edit := Input.CursorRight(e)), Consumed)
      else if ch == 'o' then (s.(inputMode := ChatModel.Insert, edit := Input.InsertChar(Input.CursorEnd(e), '\n')), Consumed)
      else if ch == ':' then (s.(inputMode := ChatModel.Command, commandInput := []), Consumed)
      else if ch == '/' then (s.(inputMode := ChatModel.Search, searchQuery := []), Consumed)
      else (s.(overlay := ChatModel.Help), Consumed)
  {
  }

  /** Normal mode without modifiers, the scroll keys: 'j' down a line, 'k' up a line, 'g'
      to the top. */
  lemma NormalScrollChars(s: ChatModel.AppState, ch: char, env: ChatModel.Env)
    requires ChatModel.Valid(s) && ScrollChar(ch)
    ensures NormalKey(s, Events.KeyEvent(Events.NoMods, Events.Char(ch)), env) ==
      if ch == 'j' then (ChatModel.ScrollDownBy(s, 1), Consumed)
      else if ch == 'k' then (ChatModel.ScrollUpBy(s, 1), Consumed)
      else (ChatModel.ScrollToTop(s), Consumed)
  {
  }

  /** Normal mode without modifiers, the char motions: 'h' and 'l' a char left and right. */
  lemma NormalMoveChars(s: ChatModel.AppState, env: ChatModel.Env)
    requires ChatModel.Valid(s)
    ensures NormalKey(s, Events.KeyEvent(Events.NoMods, Events.Char('h')), env) == (Edited(s, Input.CursorLeft(s.edit)), Consumed)
    ensures NormalKey(s, Events.KeyEvent(Events.NoMods, Events.Char('l')), env) == (Edited(s, Input.CursorRight(s.edit)), Consumed)
  {
  }

  /** Normal mode without modifiers: 'w' moves a word forward. */
  lemma NormalWordForward(s: ChatModel.AppState, env: ChatModel.Env)
    requires ChatModel.Valid(s)
    ensures NormalKey(s, Events.KeyEvent(Events.NoMods, Events.Char('w')), env) == (Edited(s, Input.WordForward(s.edit)), Consumed)
  {
  }

  /** Normal mode without modifiers: 'b' moves a word back. */
  lemma NormalWordBack(s: ChatModel.AppState, env: ChatModel.Env)
    requires ChatModel.Valid(s)
    ensures NormalKey(s, Events.KeyEvent(Events.NoMods, Events.Char('b')), env) == (Edited(s, Input.WordBack(s.edit)), Consumed)
  {
  }

  /** Normal mode without modifiers: '0' moves to the start of the line. */
  lemma NormalMoveHome(s: ChatModel.AppState, env: ChatModel.Env)
    requires ChatModel.Valid(s)
    ensures NormalKey(s, Events.KeyEvent(Events.NoMods, Events.Char('0')), env) == (Edited(s, Input.CursorHome(s.edit)), Consumed)
  {
  }

  /** Normal mode without modifiers, the deletions: 'x' the char under the cursor, 'd' the
      whole line. */
  lemma NormalDeleteChars(s: ChatModel.AppState, ch: char, env: ChatModel.Env)
    requires ChatModel.Valid(s) && DeleteChar(ch)
    ensures NormalKey(s, Events.KeyEvent(Events.NoMods, Events.Char(ch)), env) ==
      if ch == 'x' then (Edited(s, Input.DeleteCharAt(s.edit)), Consumed)
      else (Edited(s, Input.ClearInput(s.edit)), Consumed)
  {
  }

  /** Normal mode without modifiers, the remaining chars: 'p' pastes, 'n' goes to the next
      search match, 'e' edits the last message only while the line is empty, 'y' copies
      the last response, a digit yanks a code block only in visual mode, and any other char
      changes nothing. */
  lemma NormalOtherChars(s: ChatModel.AppState, ch: char, env: ChatModel.Env)
    requires ChatModel.Valid(s) && !ModeChar(ch) && !ScrollChar(ch) && !MoveChar(ch) && !DeleteChar(ch)
    ensures NormalKey(s, Events.KeyEvent(Events.NoMods, Events.Char(ch)), env) ==
      if ch == 'p' then (ChatModel.PasteClipboard(s, env), Consumed)
      else if ch == 'n' then (ChatModel.NextSearchMatch(s), Consumed)
      else if ch == 'e' then (s, if s.edit.input == [] then EditLastMessage else NoAction)
      else if ch == 'y' then (ChatModel.YankLastResponse(s, env), Consumed)
      else if '1' <= ch <= '9' && s.visualMode then (ChatModel.YankCodeBlock(s, ch as int - '1' as int, env), Consumed)
      else (s, NoAction)
  {
  }

  /** Normal mode with Shift: A and I enter Insert mode at the end or start of the line, G
      and g scroll to the bottom and top, $ goes to the end of the line and N to the
      previous match. */
  lemma NormalShiftKeys(s: ChatModel.AppState, key: Events.KeyEvent, env: ChatModel.Env)
    requires ChatModel.Valid(s) && key.mods == Events.Shift
    ensures NormalKey(s, key, env) ==
      var e := s.edit;
      match key.code
      case Char('A') => (s.(inputMode := ChatModel.Insert, edit := Input.CursorEnd(e)), Consumed)
      case Char('I') => (s.(inputMode := ChatModel.Insert, edit := Input.CursorHome(e)), Consumed)
      case Char('G') => (ChatModel.ScrollToBottom(s), Consumed)
      case Char('g') => (ChatModel.ScrollToTop(s), Consumed)
      case Char('$') => (Edited(s, Input.CursorEnd(e)), Consumed)
      case Char('N') => (ChatModel.PrevSearchMatch(s), Consumed)
      case _ => (s, NoAction)
  {
  }

  /** Normal mode with Ctrl: d and u scroll half a screen, h opens the saved conversations,
      n starts a new one, r asks for a retry, y lists the code blocks and e sends the last
      one to the editor; g scrolls to the top whatever the modifiers. */
  lemma NormalControlKeys(s: ChatModel.AppState, key: Events.KeyEvent, env: ChatModel.Env)
    requires ChatModel.Valid(s) && key.mods == Events.Control
    ensures NormalKey(s, key, env) ==
      match key.code
      case Char('d') => (ChatModel.ScrollDownBy(s, ChatModel.VisibleHeight(s) / 2), Consumed)
      case Char('u') => (ChatModel.ScrollUpBy(s, ChatModel.VisibleHeight(s) / 2), Consumed)
      case Char('g') => (ChatModel.ScrollToTop(s), Consumed)
      case Char('h') => (ChatModel.LoadHistoryList(s.(overlay := ChatModel.HistoryOverlay), env), Consumed)
      case Char('n') => (ChatModel.NewConversation(s, env), Consumed)
      case Char('r') => (s, RetryMessage)
      case Char('y') => (ListCodeBlocks(s), Consumed)
      case Char('e') => (SendLastCodeBlock(s, env), Consumed)
      case _ => (s, NoAction)
  {
  }

  /** Normal mode with any other modifier set: only g, which scrolls to the top. */
  lemma NormalModifiedKeys(s: ChatModel.AppState, key: Events.KeyEvent, env: ChatModel.Env)
    requires ChatModel.Valid(s) && key.mods != Events.NoMods && key.mods != Events.Shift && key.mods != Events.Control
    ensures NormalKey(s, key, env) == if key.code == Events.Char('g') then (ChatModel.ScrollToTop(s), Consumed) else (s, NoAction)
  {
  }

  /** Ctrl-y scans the messages for code blocks; when it finds any it lists them and turns
      visual selection on, and otherwise says that there are none. Only the blocks, the
      selection flag and the status change. */
  lemma ListCodeBlocksShows(s: ChatModel.AppState)
    ensures var r, bs := ListCodeBlocks(s), ChatModel.CodeBlocksOf(s.messages);
      && r.codeBlocks == bs
      && r.(codeBlocks := s.codeBlocks, visualMode := s.visualMode, status := s.status) == s
      && (bs != [] ==> r.visualMode && r.status == Some(ChatModel.CodeSummary(bs)))
      && (bs == [] ==> r.visualMode == s.visualMode && r.status == Some(NoCodeBlocks))
  {
  }

  /** Ctrl-e sends the newest code block to Neovim and reports it as `send_code_to_nvim`
      does, and says so when there is no block; only the blocks and the status change. */
  lemma SendLastSendsNewest(s: ChatModel.AppState, env: ChatModel.Env)
    ensures var r, bs := SendLastCodeBlock(s, env), ChatModel.CodeBlocksOf(s.messages);
      && r.codeBlocks == bs
      && r.(codeBlocks := s.codeBlocks, status := s.status) == s
      && (bs == [] ==> r.status == Some(NoCodeBlocksToSend))
      && (bs != [] ==> r.status == Some(ChatModel.SendStatus(bs, |bs| - 1, env.nvim)))
  {
    var bs := ChatModel.CodeBlocksOf(s.messages);
    var st := if bs == [] then NoCodeBlocksToSend else ChatModel.SendStatus(bs, |bs| - 1, env.nvim);
    var t := s.(codeBlocks := bs, status := Some(st));
    assert SendLastCodeBlock(s, env) == t;
    assert t.(codeBlocks := s.codeBlocks, status := s.status) == s;
  }

  // ---------------------------------------------------------------------------
  // One round of run
  // ---------------------------------------------------------------------------

  /** While the tool prompt is shown it takes every key, Ctrl+c and Ctrl+q included, and the
      round never ends the loop. */
  lemma PromptTakesKeys(s: ChatModel.AppState, key: Events.KeyEvent, env: ChatModel.Env)
    requires ChatModel.Valid(s) && s.overlay == ChatModel.ToolConfirm
    ensures EventLoop.Step(s, Events.Key(key), env) == (ChatModel.ConfirmKey(s.(status := None), key.code, env), false)
  {
  }

  /** Quitting ends the loop, saving and remembering a conversation that has messages. */
  lemma QuitSaves(s: ChatModel.AppState, env: ChatModel.Env)
    requires ChatModel.Valid(s) && s.overlay != ChatModel.ToolConfirm
    ensures var (t, done) := EventLoop.Step(s, Events.Key(Events.KeyEvent(Events.Control, Events.Char('q'))), env);
      && done
      && (s.messages != [] ==> t.config.lastConversationId == Some(s.conversation.id))
      && (s.messages == [] ==> t == s.(status := None))
  {
  }

  /** Ctrl+c during a stream cancels it and the loop goes on. */
  lemma InterruptCancels(s: ChatModel.AppState, env: ChatModel.Env)
    requires ChatModel.Valid(s) && s.overlay != ChatModel.ToolConfirm && s.streaming && !s.shouldQuit
    ensures EventLoop.Step(s, Events.Key(Events.KeyEvent(Events.Control, Events.Char('c'))), env)
         == (ChatModel.CancelStream(s.(status := None), env), false)
  {
  }

  /** A round that does not come from a key ends the loop exactly when the new state asks
      to quit. */
  lemma NonKeyRounds(s: ChatModel.AppState, ev: Events.Event, env: ChatModel.Env)
    requires ChatModel.Valid(s) && !ev.Key?
    ensures var (t, done) := EventLoop.Step(s, ev, env); done == t.shouldQuit
  {
  }
}
