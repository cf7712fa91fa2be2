/** `handle_key` (src/keybinds.rs): a key press as a function of the state, giving the new
    state and the action the main loop takes next. The handlers compare the whole modifier
    set, so Shift+Ctrl+c is not Ctrl+c; the overlay, command and search handlers look at
    the key code only. */
module Keybinds {
  import opened Wrappers
  import opened Text
  import Input
  import Events
  import ChatModel

  // Status-line messages of the code-block keys.
  const NoCodeBlocks: string := "No code blocks found"
  const NoCodeBlocksToSend: string := "No code blocks to send"

  /** What the main loop is asked to do after a key. */
  datatype KeyAction = NoAction | Quit | Consumed | SendMessage | CancelStream | RetryMessage | EditLastMessage

  /** The input line after an editing operation. */
  function Edited(s: ChatModel.AppState, e: Input.EditState): ChatModel.AppState
  {
    s.(edit := e)
  }

  /** `handle_key`: Ctrl+c and Ctrl+q first, then an open overlay, then the input mode. */
  function HandleKey(s: ChatModel.AppState, key: Events.KeyEvent, env: ChatModel.Env): (ChatModel.AppState, KeyAction)
    requires ChatModel.Valid(s)
  {
    if key == Events.KeyEvent(Events.Control, Events.Char('c')) then (s, if s.streaming then CancelStream else Quit)
    else if key == Events.KeyEvent(Events.Control, Events.Char('q')) then (s, Quit)
    else if s.overlay != ChatModel.NoOverlay then OverlayKey(s, key.code, env)
    else match s.inputMode
      case Normal => NormalKey(s, key, env)
      case Insert => InsertKey(s, key)
      case Command => CommandKey(s, key.code, env)
      case Search => SearchKey(s, key.code, env)
  }

  /** The code blocks listed in the status line and visual selection on (Ctrl-y). */
  function ListCodeBlocks(s: ChatModel.AppState): ChatModel.AppState
  {
    var x := ChatModel.ExtractCodeBlocks(s);
    var found := x.codeBlocks != [];
    x.(visualMode := found || x.visualMode,
       status := Some(if found then ChatModel.CodeSummary(x.codeBlocks) else NoCodeBlocks))
  }

  /** The last code block sent to the editor (Ctrl-e). */
  function SendLastCodeBlock(s: ChatModel.AppState, env: ChatModel.Env): ChatModel.AppState
  {
    var x := ChatModel.ExtractCodeBlocks(s);
    if x.codeBlocks == [] then ChatModel.WithStatus(x, NoCodeBlocksToSend)
    else ChatModel.SendCodeToNvim(x, |x.codeBlocks| - 1, env)
  }

  /** `handle_normal_mode`: the arms in the order the program tries them. */
  function NormalKey(s: ChatModel.AppState, key: Events.KeyEvent, env: ChatModel.Env): (ChatModel.AppState, KeyAction)
    requires ChatModel.Valid(s)
  {
    var m, c, e := key.mods, key.code, s.edit;
    var none := m == Events.NoMods;
    var shift := m == Events.Shift;
    var control := m == Events.Control;
    if none && c == Events.Char('i') then (s.(inputMode := ChatModel.Insert), Consumed)
    else if none && c == Events.Char('a') then (s.(inputMode := ChatModel.Insert, edit := Input.CursorRight(e)), Consumed)
    else if shift && c == Events.Char('A') then (s.(inputMode := ChatModel.Insert, edit := Input.CursorEnd(e)), Consumed)
    else if shift && c == Events.Char('I') then (s.(inputMode := ChatModel.Insert, edit := Input.CursorHome(e)), Consumed)
    else if none && c == Events.Char('o') then
      (s.(inputMode := ChatModel.Insert, edit := Input.InsertChar(Input.CursorEnd(e), '\n')), Consumed)
    else if none && c == Events.Char(':') then (s.(inputMode := ChatModel.Command, commandInput := []), Consumed)
    else if none && (c == Events.Char('j') || c == Events.Down) then (ChatModel.ScrollDownBy(s, 1), Consumed)
    else if none && (c == Events.Char('k') || c == Events.Up) then (ChatModel.ScrollUpBy(s, 1), Consumed)
    else if control && c == Events.Char('d') then (ChatModel.ScrollDownBy(s, ChatModel.VisibleHeight(s) / 2), Consumed)
    else if control && c == Events.Char('u') then (ChatModel.ScrollUpBy(s, ChatModel.VisibleHeight(s) / 2), Consumed)
    else if shift && c == Events.Char('G') then (ChatModel.ScrollToBottom(s), Consumed)
    else if c == Events.Char('g') then (ChatModel.ScrollToTop(s), Consumed)
    else if none && (c == Events.Char('h') || c == Events.Left) then (Edited(s, Input.CursorLeft(e)), Consumed)
    else if none && (c == Events.Char('l') || c == Events.Right) then (Edited(s, Input.CursorRight(e)), Consumed)
    else if none && c == Events.Char('w') then (Edited(s, Input.WordForward(e)), Consumed)
    else if none && c == Events.Char('b') then (Edited(s, Input.WordBack(e)), Consumed)
    else if none && c == Events.Char('0') then (Edited(s, Input.CursorHome(e)), Consumed)
    else if shift && c == Events.Char('$') then (Edited(s, Input.CursorEnd(e)), Consumed)
    else if none && c == Events.Char('x') then (Edited(s, Input.DeleteCharAt(e)), Consumed)
    else if none && c == Events.Char('d') then (Edited(s, Input.ClearInput(e)), Consumed)
    else if none && c == Events.Char('p') then (ChatModel.PasteClipboard(s, env), Consumed)
    else if none && c == Events.Char('?') then (s.(overlay := ChatModel.Help), Consumed)
    else if control && c == Events.Char('h') then
      (ChatModel.LoadHistoryList(s.(overlay := ChatModel.HistoryOverlay), env), Consumed)
    else if control && c == Events.Char('n') then (ChatModel.NewConversation(s, env), Consumed)
    else if none && c == Events.Char('/') then (s.(inputMode := ChatModel.Search, searchQuery := []), Consumed)
    else if none && c == Events.Char('n') then (ChatModel.NextSearchMatch(s), Consumed)
    else if shift && c == Events.Char('N') then (ChatModel.PrevSearchMatch(s), Consumed)
    else if control && c == Events.Char('r') then (s, RetryMessage)
    else if none && c == Events.Char('e') && e.input == [] then (s, EditLastMessage)
    else if none && c == Events.Char('y') then (ChatModel.YankLastResponse(s, env), Consumed)
    else if control && c == Events.Char('y') then (ListCodeBlocks(s), Consumed)
    else if control && c == Events.Char('e') then (SendLastCodeBlock(s, env), Consumed)
    else if none && c.Char? && '1' <= c.c <= '9' && s.visualMode then
      (ChatModel.YankCodeBlock(s, c.c as int - '1' as int, env), Consumed)
    else (s, NoAction)
  }

  /** `handle_insert_mode` */
  function InsertKey(s: ChatModel.AppState, key: Events.KeyEvent): (ChatModel.AppState, KeyAction)
    requires ChatModel.Valid(s)
  {
    var m, c, e := key.mods, key.code, s.edit;
    var none := m == Events.NoMods;
    var control := m == Events.Control;
    if none && c == Events.Esc then (s.(inputMode := ChatModel.Normal), Consumed)
    else if none && c == Events.Enter then (s, if Trim(e.input) == [] then NoAction else SendMessage)
    else if (m == Events.Shift || m == Events.Alt) && c == Events.Enter then (Edited(s, Input.InsertChar(e, '\n')), Consumed)
    else if (none && c == Events.Backspace) || (control && c == Events.Char('h')) then
      (Edited(s, Input.DeleteCharBefore(e)), Consumed)
    else if none && c == Events.Delete then (Edited(s, Input.DeleteCharAt(e)), Consumed)
    else if control && c == Events.Char('w') then (Edited(s, Input.DeleteWordBefore(e)), Consumed)
    else if control && c == Events.Char('u') then (Edited(s, Input.DeleteToStart(e)), Consumed)
    else if none && c == Events.Left then (Edited(s, Input.CursorLeft(e)), Consumed)
    else if none && c == Events.Right then (Edited(s, Input.CursorRight(e)), Consumed)
    else if (none && c == Events.Home) || (control && c == Events.Char('a')) then (Edited(s, Input.CursorHome(e)), Consumed)
    else if (none && c == Events.End) || (control && c == Events.Char('e')) then (Edited(s, Input.CursorEnd(e)), Consumed)
    else if (control && c == Events.Char('p')) || (none && c == Events.Up) then (ChatModel.HistoryPrev(s), Consumed)
    else if (control && c == Events.Char('n')) || (none && c == Events.Down) then (ChatModel.HistoryNext(s), Consumed)
    else if none && c == Events.Tab then (ChatModel.TabComplete(s), Consumed)
    else if (none || m == Events.Shift) && c.Char? then (Edited(s, Input.InsertChar(e, c.c)), Consumed)
    else (s, NoAction)
  }

  /** The line with its last char removed; an empty line stays empty (`String::pop`). */
  function Pop(line: string): (r: string)
    ensures line == [] ==> r == []
    ensures line != [] ==> r + [line[|line| - 1]] == line
  {
    if line == [] then [] else line[..|line| - 1]
  }

  /** `handle_command_mode` */
  function CommandKey(s: ChatModel.AppState, code: Events.KeyCode, env: ChatModel.Env): (ChatModel.AppState, KeyAction)
  {
    match code
    case Esc => (s.(inputMode := ChatModel.Normal, commandInput := []), Consumed)
    case Enter => (ChatModel.ExecuteCommand(s.(inputMode := ChatModel.Normal, commandInput := []), s.commandInput, env), Consumed)
    case Backspace =>
      var line := Pop(s.commandInput);
      (s.(commandInput := line, inputMode := if line == [] then ChatModel.Normal else s.inputMode), Consumed)
    case Char(ch) => (s.(commandInput := s.commandInput + [ch]), Consumed)
    case _ => (s, NoAction)
  }

  /** `handle_search_mode` */
  function SearchKey(s: ChatModel.AppState, code: Events.KeyCode, env: ChatModel.Env): (ChatModel.AppState, KeyAction)
  {
    match code
    case Esc => (s.(inputMode := ChatModel.Normal, searchQuery := []), Consumed)
    case Enter => (ChatModel.ExecuteSearch(s.(inputMode := ChatModel.Normal), env), Consumed)
    case Backspace =>
      var query := Pop(s.searchQuery);
      (s.(searchQuery := query, inputMode := if query == [] then ChatModel.Normal else s.inputMode), Consumed)
    case Char(ch) => (s.(searchQuery := s.searchQuery + [ch]), Consumed)
    case _ => (s, NoAction)
  }

  /** `handle_overlay_key` */
  function OverlayKey(s: ChatModel.AppState, code: Events.KeyCode, env: ChatModel.Env): (ChatModel.AppState, KeyAction)
  {
    if code == Events.Esc || code == Events.Char('q') then (s.(overlay := ChatModel.NoOverlay), Consumed)
    else if code == Events.Char('j') || code == Events.Down then (ChatModel.OverlayScrollDown(s), Consumed)
    else if code == Events.Char('k') || code == Events.Up then (ChatModel.OverlayScrollUp(s), Consumed)
    else if code == Events.Enter then (ChatModel.OverlaySelect(s, env), Consumed)
    else (s, NoAction)
  }
}
