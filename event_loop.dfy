/** One round of `App::run` (src/app.rs): an event as a function of the state, giving the
    new state and whether `run` returns. Drawing the screen is not part of the model. */
module EventLoop {
  import opened Wrappers
  import Events
  import ChatModel
  import Keybinds

  /** The state after an arm, and `run` returning when the state asks to quit. */
  function Continue(s: ChatModel.AppState): (ChatModel.AppState, bool)
  {
    (s, s.shouldQuit)
  }

  /** The `Key` arm: the status line is cleared; the tool prompt takes every key while it is
      shown (and `run` goes straight to the next round); otherwise `handle_key` decides and
      the main loop carries out its action. */
  function OnKey(s: ChatModel.AppState, key: Events.KeyEvent, env: ChatModel.Env): (ChatModel.AppState, bool)
    requires ChatModel.Valid(s)
  {
    var c := s.(status := None);
    if c.overlay == ChatModel.ToolConfirm then (ChatModel.ConfirmKey(c, key.code, env), false)
    else
      var (t, action) := Keybinds.HandleKey(c, key, env);
      match action
      case Quit => (if t.messages != [] then ChatModel.SaveAndTrack(t) else t, true)
      case SendMessage => Continue(ChatModel.SendMessage(t, env))
      case CancelStream => Continue(ChatModel.CancelStream(t, env))
      case RetryMessage => Continue(ChatModel.RetryLast(t, env))
      case EditLastMessage => Continue(ChatModel.EditLastMessage(t))
      case _ => Continue(t)
  }

  /** `run`'s `match event` followed by the `should_quit` check. */
  function Step(s: ChatModel.AppState, ev: Events.Event, env: ChatModel.Env): (ChatModel.AppState, bool)
    requires ChatModel.Valid(s)
  {
    match ev
    case Key(k) => OnKey(s, k, env)
    case ApiChunk(text) => Continue(ChatModel.OnChunk(s, text))
    case ApiDone => Continue(ChatModel.OnDone(s, env))
    case ApiError(err) => Continue(ChatModel.OnError(s, err))
    case ToolUseRequest(body) => Continue(ChatModel.OnToolUse(s, body, env))
    case Resize(_, h) => Continue(ChatModel.OnResize(s, h))
    case Tick => Continue(ChatModel.OnTick(s))
    case Mouse(kind) => Continue(ChatModel.OnMouse(s, kind))
  }
}
